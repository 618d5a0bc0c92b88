/** Value types shared by the pose decoder and the tracker: nullable values,
    error results, the android.graphics geometry records and the classifier's
    Recognition record. */
module Common {

  /** A possibly-null reference. */
  datatype Option<+T> = None | Some(value: T)

  /** The outcome of an operation that the Java code can abort with a runtime exception. */
  datatype Result<+T, +E> = Ok(value: T) | Err(error: E)

  /** android.graphics.PointF. */
  datatype Point = Point(x: real, y: real)

  /** android.graphics.RectF; width and height are signed, as in the Android class. */
  datatype Rect = Rect(left: real, top: real, right: real, bottom: real) {
    function Width(): real { right - left }
    function Height(): real { bottom - top }
  }

  /** Classifier.Recognition: an id, a title, a confidence and a location that may be null. */
  datatype Recognition = Recognition(id: string, title: string, confidence: real, location: Option<Rect>)

  /** An ARGB colour, written as the unsigned 32-bit value android.graphics.Color packs. */
  type Color = nat

  const Blue: Color := 0xFF00_00FF
  const Red: Color := 0xFFFF_0000
  const Green: Color := 0xFF00_FF00
  const Yellow: Color := 0xFFFF_FF00
  const Cyan: Color := 0xFF00_FFFF
  const Magenta: Color := 0xFFFF_00FF
  const White: Color := 0xFFFF_FFFF

  function Min(a: int, b: int): int {
    if a <= b then a else b
  }
}

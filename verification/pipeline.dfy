/** What the tracker does with the recognitions runInference produces. */
module Pipeline {
  import opened Common
  import opened Decoder
  import opened Tracker

  /** Unpacking the recognitions of runInference fills every slot, in class
      order, with x = 2 * poses_y, y = 2 * poses_x and confidence 0.9. */
  lemma UnpackAfterInference(scores: Grid, offsets: Grid)
    requires ValidInput(scores, offsets)
    ensures Unpack(RunInference(scores, offsets)).Ok?
    ensures forall k | 0 <= k < NumClasses ::
      Unpack(RunInference(scores, offsets)).value[k] ==
        Slot(Point(2.0 * DecodeClass(scores, offsets, k).location.y, 2.0 * DecodeClass(scores, offsets, k).location.x), 0.9)
  {
    var poses := RunInference(scores, offsets);
    assert |poses| == SlotCount;
    assert forall n | 0 <= n < |poses| :: poses[n].location.Some?;
    var slots := Unpack(poses).value;
    forall k | 0 <= k < NumClasses
      ensures slots[k] == Slot(Point(2.0 * DecodeClass(scores, offsets, k).location.y, 2.0 * DecodeClass(scores, offsets, k).location.x), 0.9)
    {
      assert slots[k] == SlotOf(poses[k].location.value, poses[k].confidence);
    }
  }

  /** Every slot unpacked from runInference's output is confident beyond
      both drawing thresholds. */
  lemma InferenceConfident(scores: Grid, offsets: Grid)
    requires ValidInput(scores, offsets)
    ensures Unpack(RunInference(scores, offsets)).Ok?
    ensures forall n | 0 <= n < SlotCount :: SlotConfidence(RunInference(scores, offsets), n) == 0.9
  {
    UnpackAfterInference(scores, offsets);
  }

  /** Because runInference reports confidence 0.9 for every class, the whole
      skeleton is drawn whatever the scores: the outline, all five face dots
      and all twelve segments. */
  lemma InferenceDrawsWholeSkeleton(scores: Grid, offsets: Grid, toCanvas: Point -> Point)
    requires ValidInput(scores, offsets)
    ensures DrawSingleBox(Some(RunInference(scores, offsets)), toCanvas).Ok?
    ensures |DrawSingleBox(Some(RunInference(scores, offsets)), toCanvas).value| == 1 + 5 + 12
    ensures forall k | 0 <= k < 5 ::
      Dot(k, CanvasSlots(RunInference(scores, offsets), toCanvas)[k].location)
        in DrawSingleBox(Some(RunInference(scores, offsets)), toCanvas).value
    ensures forall i | 0 <= i < |Skeleton| ::
      Skeleton[i].a < SlotCount && Skeleton[i].b < SlotCount &&
      SegmentOf(CanvasSlots(RunInference(scores, offsets), toCanvas), Skeleton[i])
        in DrawSingleBox(Some(RunInference(scores, offsets)), toCanvas).value
  {
    var poses := RunInference(scores, offsets);
    InferenceConfident(scores, offsets);
    ConfidentPosesDrawAll(poses, toCanvas);
  }

  /** The rectangles runInference packs have zero size, so processResults
      shows all 17 of them but tracks none and leaves the tracked objects
      as they were. */
  lemma InferenceNeverTracked(scores: Grid, offsets: Grid, prior: seq<TrackedRecognition>, toScreen: Rect -> Rect)
    requires ValidInput(scores, offsets)
    ensures |ProcessResults(RunInference(scores, offsets), prior, toScreen).screenRects| == NumClasses
    ensures ProcessResults(RunInference(scores, offsets), prior, toScreen).trackedObjects == prior
  {
  }
}

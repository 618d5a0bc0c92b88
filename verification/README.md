# Pose decoding and drawing in the TensorFlow Lite pose demo

This project models, in Dafny, the two pieces of the Android pose demo that
turn a pose network's output into pictures on the screen:

- **the heatmap decoder** of `ClassifierFloatMobileNet`.
  - `getPoses` scans the 23 x 17 score grid of each of the 17 keypoint classes
    in row-major order. The running maximum starts at the score of cell (0, 0).
    Every cell scoring strictly more than the running maximum replaces it, so
    the scan ends on the first cell, in row-major order, that attains the
    maximum.
  - It reads the two short-range offsets of the winning cell and computes the
    pixel location with stride 32 and a horizontal flip about
    x_max = 17 * 32 = 544.
  - `runInference` packs the 17 locations into zero-size rectangles. The
    rectangle's y goes into left/right and its x into top/bottom, and every
    rectangle carries the constant confidence 0.9.
- **the pose drawing and result filtering** of `MultiBoxTracker`.
  - `draw_single_box` unpacks up to 17 recognitions into keypoint slots. The
    "left" coordinate becomes x and the "top" coordinate becomes y, both
    scaled by 2.
  - It maps the slots to the canvas and draws:
    - a fixed outline;
    - the five face keypoints whose confidence exceeds 0.1;
    - the twelve skeleton segments whose two ends both exceed 0.5.
  - `processResults` rebuilds the list of on-screen rectangles from the
    results that have a location. It replaces the tracked objects with the
    results whose frame rectangle is at least 16 x 16. Those objects are
    coloured from the 15-entry palette in order and capped at 15. When no
    result qualifies, the previous tracked objects are kept.

Module `Decoder` models the classifier. Module `Tracker` models the tracker.
Module `Pipeline` joins them. Its lemmas show what the tracker does with
whatever `runInference` returns, when that list reaches the tracker unchanged:
- the constant 0.9 confidence means the whole skeleton is always drawn;
- the zero-size rectangles mean processResults never tracks anything.

The scan has a declarative reference, `Decoder.IsFirstMax`: a cell holding the
maximum score that no cell earlier in scan order already reaches. The loop
implementation `Decoder.GetPoses` is proved against the functional decoder
`Decoder.DecodeClass`, and that decoder is proved against the reference.

Floats are modelled as mathematical reals. Canvas calls become a returned
list of drawing operations (`Tracker.DrawOp`). The frame-to-canvas matrix is a
function parameter (`toCanvas` for `mapPoints`, `toScreen` for `mapRect`).

Three facts about the code shape the model:
- A short pose list is not an error: unused slots stay at (0, 0) with
  confidence 0. The grid shapes are fixed by allocation, and every class
  always yields a location.
- The packed confidence is the constant 0.9, not the class's maximum score.
- The output stride is 32.

## Model

| member | source | states |
|---|---|---|
| Decoder.Scanned | lite/examples/image_classification/android/app/src/main/java/org/tensorflow/lite/examples/classification/tflite/ClassifierFloatMobileNet.java:176-194 | The running state of the scan of one class. The remembered cell is always a grid cell, and the running maximum is that cell's score. |
| Decoder.ScannedIsPrefixFirstMax | lite/examples/image_classification/android/app/src/main/java/org/tensorflow/lite/examples/classification/tflite/ClassifierFloatMobileNet.java:177-190 | The loop invariant. After any prefix of the row-major scan, the remembered cell is (0, 0) or lies inside the prefix. No cell of the prefix scores more than it. Every cell before it scores strictly less. |
| Decoder.ArgMaxFirst | lite/examples/image_classification/android/app/src/main/java/org/tensorflow/lite/examples/classification/tflite/ClassifierFloatMobileNet.java:176-194 | The cell the complete scan ends on is the first maximum of the class's scores in row-major order. |
| Decoder.FirstMaxUnique | lite/examples/image_classification/android/app/src/main/java/org/tensorflow/lite/examples/classification/tflite/ClassifierFloatMobileNet.java:180 | Because the comparison is strict, at most one cell is the first maximum, so ties go to the earliest cell. |
| Decoder.DecodeClass | lite/examples/image_classification/android/app/src/main/java/org/tensorflow/lite/examples/classification/tflite/ClassifierFloatMobileNet.java:168-194 | One class's result: a first-maximum cell, tmp_max equal to that cell's score, and the pose computed from that cell's offsets, or (0, 0) when the cell is (0, 0). |
| Decoder.DecodeClassMatchesReference | lite/examples/image_classification/android/app/src/main/java/org/tensorflow/lite/examples/classification/tflite/ClassifierFloatMobileNet.java:168-194 | For any cell that satisfies the first-maximum reference, the decoder reports exactly that cell, its score and its location. |
| Decoder.StaysAtOriginIff | lite/examples/image_classification/android/app/src/main/java/org/tensorflow/lite/examples/classification/tflite/ClassifierFloatMobileNet.java:169-186 | The scan stays on cell (0, 0) if and only if no cell scores strictly more than cell (0, 0). In that case the pose remains the initial (0, 0); it is not the location of cell (0, 0). |
| Decoder.ClassesIndependent | lite/examples/image_classification/android/app/src/main/java/org/tensorflow/lite/examples/classification/tflite/ClassifierFloatMobileNet.java:180-186 | Class k's result depends only on score channel k and offset channels k and k + 17. |
| Decoder.CellLocation | lite/examples/image_classification/android/app/src/main/java/org/tensorflow/lite/examples/classification/tflite/ClassifierFloatMobileNet.java:182-186 | The location of a winning cell (row, col): x = 496 - 32 col - the horizontal offset (channel k + 17), flipped about x_max = 544, and y = 32 row - 16 + the vertical offset (channel k). |
| Decoder.PoseOf | lite/examples/image_classification/android/app/src/main/java/org/tensorflow/lite/examples/classification/tflite/ClassifierFloatMobileNet.java:169-186 | The pose left in poses_x/poses_y for a winning cell. It is (0, 0) when the cell is (0, 0), because the formula runs only on a strict improvement; otherwise it is the cell's location. |
| Decoder.ScannedStep | lite/examples/image_classification/android/app/src/main/java/org/tensorflow/lite/examples/classification/tflite/ClassifierFloatMobileNet.java:178-190 | A strict improvement, the only event that moves the running best and runs the location formula, never happens at cell (0, 0). |
| Decoder.PeakClassDecodes | lite/examples/image_classification/android/app/src/main/java/org/tensorflow/lite/examples/classification/tflite/ClassifierFloatMobileNet.java:176-190 | A class whose scores are zero except for one positive peak is decoded at the peak, with the peak as tmp_max. |
| Decoder.FlatClassStays | lite/examples/image_classification/android/app/src/main/java/org/tensorflow/lite/examples/classification/tflite/ClassifierFloatMobileNet.java:169-180 | A class that scores zero everywhere keeps cell (0, 0), pose (0, 0) and tmp_max 0. |
| Decoder.SinglePeakDecodes | lite/examples/image_classification/android/app/src/main/java/org/tensorflow/lite/examples/classification/tflite/ClassifierFloatMobileNet.java:168-194 | On a grid with one positive peak away from (0, 0), the peak's class decodes to (496 - 32 col, 32 row - 16). Every other class stays at (0, 0). |
| Decoder.ScanRow | lite/examples/image_classification/android/app/src/main/java/org/tensorflow/lite/examples/classification/tflite/ClassifierFloatMobileNet.java:178-192 | The column loop takes tmp_max and the pose from the scan state at the start of a row to the state at the start of the next row. |
| Decoder.ScanClass | lite/examples/image_classification/android/app/src/main/java/org/tensorflow/lite/examples/classification/tflite/ClassifierFloatMobileNet.java:177-193 | Starting from the score of cell (0, 0) and pose (0, 0), the row and column loops end with the final scan state and its pose. |
| Decoder.ResetPoses | lite/examples/image_classification/android/app/src/main/java/org/tensorflow/lite/examples/classification/tflite/ClassifierFloatMobileNet.java:169-173 | For every class, tmp_max becomes the score of cell (0, 0) and both pose arrays become 0, whatever they held. |
| Decoder.ScanClasses | lite/examples/image_classification/android/app/src/main/java/org/tensorflow/lite/examples/classification/tflite/ClassifierFloatMobileNet.java:176-194 | After the class loop, every class holds its own final scan state and pose. |
| Decoder.GetPoses | lite/examples/image_classification/android/app/src/main/java/org/tensorflow/lite/examples/classification/tflite/ClassifierFloatMobileNet.java:168-195 | For every class, getPoses leaves tmp_max at the first maximum's score and poses_x/poses_y at that cell's pose. The result does not depend on what the arrays held before. |
| Decoder.RunInference | lite/examples/image_classification/android/app/src/main/java/org/tensorflow/lite/examples/classification/tflite/ClassifierFloatMobileNet.java:154-164 | Returns 17 recognitions in class order. Each has confidence 0.9 and a zero-size rectangle: left = right = the decoded y, top = bottom = the decoded x. |
| Tracker.SlotOf | lite/examples/image_classification/android/app/src/main/java/org/tensorflow/lite/examples/classification/tracking/MultiBoxTracker.java:239-243 | The slot a pose fills before mapping: x = 2 left, y = 2 top, with the pose's confidence. |
| Tracker.UnpackFrom | lite/examples/image_classification/android/app/src/main/java/org/tensorflow/lite/examples/classification/tracking/MultiBoxTracker.java:238-246 | Unpacking from pose n on succeeds exactly when no later pose lacks a location and at most 17 poses are given. Each pose fills its own slot, and other slots are untouched. A null location fails first; an 18th pose overruns the arrays. |
| Tracker.Unpack | lite/examples/image_classification/android/app/src/main/java/org/tensorflow/lite/examples/classification/tracking/MultiBoxTracker.java:232-246 | Unpacking succeeds if and only if there are at most 17 poses and all are located. Pose n fills slot n with (2 left, 2 top) and its confidence. Unused slots keep (0, 0) and confidence 0. |
| Tracker.MapSlots | lite/examples/image_classification/android/app/src/main/java/org/tensorflow/lite/examples/classification/tracking/MultiBoxTracker.java:274 | Every slot's location is mapped to the canvas, and every confidence is unchanged. |
| Tracker.KeypointVisible | lite/examples/image_classification/android/app/src/main/java/org/tensorflow/lite/examples/classification/tracking/MultiBoxTracker.java:378 | A keypoint is drawn when its confidence is strictly above minPoseConf = 0.1. |
| Tracker.JointVisible | lite/examples/image_classification/android/app/src/main/java/org/tensorflow/lite/examples/classification/tracking/MultiBoxTracker.java:372 | A joint is drawn when both ends' confidences are strictly above minPartConf = 0.5. |
| Tracker.DrawKeypoints | lite/examples/image_classification/android/app/src/main/java/org/tensorflow/lite/examples/classification/tracking/MultiBoxTracker.java:377-381 | A dot is drawn for a slot if and only if its confidence is strictly above 0.1, at the slot's location. Dots come in increasing slot order, so each slot is drawn at most once. All n dots are drawn when all are confident. |
| Tracker.DrawJoints | lite/examples/image_classification/android/app/src/main/java/org/tensorflow/lite/examples/classification/tracking/MultiBoxTracker.java:371-375 | A segment is drawn for a limb if and only if both ends are strictly above 0.5, from end a to end b. Only limbs of the table are drawn. |
| Tracker.DrawJointsAppend | lite/examples/image_classification/android/app/src/main/java/org/tensorflow/lite/examples/classification/tracking/MultiBoxTracker.java:344-367 | Limbs are drawn in table order, each once: the segments of a concatenated table are the segments of its parts, concatenated. Together with the single-limb case this fixes the drawing order, so the yellow torso strokes come last. |
| Tracker.SkeletonShape | lite/examples/image_classification/android/app/src/main/java/org/tensorflow/lite/examples/classification/tracking/MultiBoxTracker.java:344-367 | The skeleton has 12 limbs joining two distinct slots among 5-16. Every slot from 5 to 16 is joined, and the face slots 0-4 never are. |
| Tracker.DrawPose | lite/examples/image_classification/android/app/src/main/java/org/tensorflow/lite/examples/classification/tracking/MultiBoxTracker.java:211-216 | The outline is always drawn first. |
| Tracker.DotInPoseIff | lite/examples/image_classification/android/app/src/main/java/org/tensorflow/lite/examples/classification/tracking/MultiBoxTracker.java:336-341 | A dot for slot k is drawn if and only if k is a face slot (0-4) with confidence above 0.1. |
| Tracker.SegmentInPoseIff | lite/examples/image_classification/android/app/src/main/java/org/tensorflow/lite/examples/classification/tracking/MultiBoxTracker.java:344-367 | Each skeleton segment is drawn if and only if both its slots are above 0.5. No segment outside the skeleton is drawn. |
| Tracker.ConfidentPoseDrawsAll | lite/examples/image_classification/android/app/src/main/java/org/tensorflow/lite/examples/classification/tracking/MultiBoxTracker.java:336-367 | When every slot is above 0.5, exactly 18 operations are drawn: the outline, all five face dots and all twelve segments. |
| Tracker.DrawSingleBox | lite/examples/image_classification/android/app/src/main/java/org/tensorflow/lite/examples/classification/tracking/MultiBoxTracker.java:192-216 | Nothing is drawn when the pose list is null. Otherwise drawing fails exactly when unpacking fails, and on success the outline comes first. |
| Tracker.CanvasSlots | lite/examples/image_classification/android/app/src/main/java/org/tensorflow/lite/examples/classification/tracking/MultiBoxTracker.java:274-332 | The 17 joints, as mapped by mapPoints. Joint n of a given pose lies at toCanvas(2 left, 2 top) with that pose's confidence. A joint past the end lies at toCanvas(0, 0) with confidence 0, because mapPoints maps the unused entries too. draw_single_box draws exactly the pose of these joints. |
| Tracker.DotDrawnIff | lite/examples/image_classification/android/app/src/main/java/org/tensorflow/lite/examples/classification/tracking/MultiBoxTracker.java:238-341 | For a successfully unpacked pose list, a dot for keypoint k is drawn if and only if k < 5 and pose k's confidence is above 0.1. |
| Tracker.SegmentDrawnIff | lite/examples/image_classification/android/app/src/main/java/org/tensorflow/lite/examples/classification/tracking/MultiBoxTracker.java:238-367 | For a successfully unpacked pose list, skeleton segment i is drawn if and only if the poses at both its ends are above 0.5. No other segment is drawn. |
| Tracker.ConfidentPosesDrawAll | lite/examples/image_classification/android/app/src/main/java/org/tensorflow/lite/examples/classification/tracking/MultiBoxTracker.java:276-367 | A pose list whose 17 slots are all above 0.5 draws the outline, five dots and twelve segments. |
| Tracker.Degenerate | lite/examples/image_classification/android/app/src/main/java/org/tensorflow/lite/examples/classification/tracking/MultiBoxTracker.java:404 | A frame rectangle is not tracked when its signed width or height is below MIN_SIZE = 16. |
| Tracker.ScreenRects | lite/examples/image_classification/android/app/src/main/java/org/tensorflow/lite/examples/classification/tracking/MultiBoxTracker.java:387-402 | Every located result, and only located results, contributes its confidence and mapped rectangle. When all results are located there is one entry per result. |
| Tracker.ScreenRectsAppend | lite/examples/image_classification/android/app/src/main/java/org/tensorflow/lite/examples/classification/tracking/MultiBoxTracker.java:390-402 | screenRects keeps result order: the entries of a concatenation are the parts' entries, concatenated. |
| Tracker.RectsToTrack | lite/examples/image_classification/android/app/src/main/java/org/tensorflow/lite/examples/classification/tracking/MultiBoxTracker.java:390-410 | A result is a tracking candidate if and only if it is located and its frame rectangle is at least 16 wide and 16 high. |
| Tracker.RectsToTrackAppend | lite/examples/image_classification/android/app/src/main/java/org/tensorflow/lite/examples/classification/tracking/MultiBoxTracker.java:390-410 | The candidate list keeps result order: the candidates of a concatenation are the parts' candidates, concatenated. |
| Tracker.AssignColors | lite/examples/image_classification/android/app/src/main/java/org/tensorflow/lite/examples/classification/tracking/MultiBoxTracker.java:417-429 | Candidate i becomes a tracked object with its rectangle, confidence and title and the palette colour at position i. The loop stops once the 15 colours are used. |
| Tracker.ProcessResults | lite/examples/image_classification/android/app/src/main/java/org/tensorflow/lite/examples/classification/tracking/MultiBoxTracker.java:383-430 | screenRects is exactly the screenRects list of the results: located results in order, each with its confidence and mapped rectangle. If no result is located and at least 16 x 16, the tracked objects are unchanged. Otherwise tracked object i is the i-th qualifying result, with its rectangle, confidence and title and colour COLORS[i]; the list is cut at 15. |
| Pipeline.UnpackAfterInference | lite/examples/image_classification/android/app/src/main/java/org/tensorflow/lite/examples/classification/tflite/ClassifierFloatMobileNet.java:157-164 | The tracker always unpacks runInference's output. Slot k gets (2 poses_y[k], 2 poses_x[k]) and confidence 0.9. |
| Pipeline.InferenceConfident | lite/examples/image_classification/android/app/src/main/java/org/tensorflow/lite/examples/classification/tflite/ClassifierFloatMobileNet.java:159-162 | Every slot unpacked from runInference's output has confidence 0.9. |
| Pipeline.InferenceDrawsWholeSkeleton | lite/examples/image_classification/android/app/src/main/java/org/tensorflow/lite/examples/classification/tracking/MultiBoxTracker.java:336-381 | Whatever the scores, drawing runInference's output draws all 18 operations: the outline, five face dots and twelve segments. |
| Pipeline.InferenceNeverTracked | lite/examples/image_classification/android/app/src/main/java/org/tensorflow/lite/examples/classification/tracking/MultiBoxTracker.java:404-415 | processResults on runInference's output lists 17 screen rectangles but tracks none, because every rectangle has zero size, so the tracked objects stay as they were. |

## Left out

- Running the network (`tflite.runForMultipleInputsOutputs`), image preparation (`addPixelValue`) and the probability accessors. The model starts from the filled score and offset grids.
- The `mid_offsets` and `segments` outputs. The decoder never reads them.
- Float32 rounding. Scores, offsets, locations and confidences are reals, so rounding of `(float)` casts and of the location arithmetic is not modelled.
- Canvas, Paint and text drawing. They become `DrawOp` values; stroke widths, radii and the red outline's geometry are not modelled.
- The frame-to-canvas matrix and its computation from sensor orientation and canvas size. `mapPoints` and `mapRect` are the function parameters `toCanvas` and `toScreen`.
- Tracker.DrawSingleBox: when unpacking throws, the Java code has already drawn the outline. The model returns the error without the partial drawing.
- The grid shapes are a precondition (`ValidInput`), not an error. The arrays are allocated with those fixed extents, and no shape error exists in the code.
- Null elements inside the pose list, and a null results list in processResults. Recognitions are values here; only a null location is modelled.
- `trackResults`, which only logs and calls processResults, and `setPoses`, which only stores the list.
- `synchronized`, logging, and the commented-out grid drawing and tracking code.
- Colours are written as unsigned ARGB values; Java stores them as signed ints with the same bits.
- NaN scores and coordinates. On reals every comparison is decided, but Java `>` and `<` are false on NaN. A NaN score at cell (0, 0) would keep the class at (0, 0), and a rectangle with a NaN side is never below MIN_SIZE, so it would be tracked.
- `Classifier.Recognition` is not part of this model. The model reads `getLocation()` as the stored rectangle, which may be null, so the null-location exception and the `continue` in processResults can happen. If the accessor returned a copy, a null location would read as (0, 0, 0, 0) and neither could happen.
- The hand-off from runInference to setPoses and trackResults is not modelled, since the classifier's caller and the activity are not part of this model. The Pipeline lemmas assume the list arrives unchanged.

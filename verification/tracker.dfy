/** The pose-drawing and result-filtering logic of MultiBoxTracker.
    Canvas calls become a returned list of drawing operations; the
    frame-to-canvas matrix is a function parameter. */
module Tracker {
  import opened Common

  /** A face keypoint is drawn when its confidence exceeds this (minPoseConf). */
  const MinPoseConf: real := 0.1
  /** A limb segment is drawn when both ends exceed this (minPartConf). */
  const MinPartConf: real := 0.5
  /** Factor applied to the recognition coordinates before mapping. */
  const PoseScale: real := 2.0
  /** Slots filled from the pose list (the sizes of confidences and mPoints / 2). */
  const SlotCount: nat := 17
  /** Slots 0 to 4 (nose, eyes, ears) are drawn as standalone dots. */
  const FaceSlots: nat := 5
  /** Frame rectangles narrower or lower than this are not tracked (MIN_SIZE). */
  const MinSize: real := 16.0

  /** COLORS, the palette tracked objects are coloured from, in index order. */
  const Colors: seq<Color> := [
    Blue, Red, Green, Yellow, Cyan, Magenta, White,
    0xFF55_FF55, 0xFFFF_A500, 0xFFFF_8888, 0xFFAA_AAFF,
    0xFFFF_FFAA, 0xFF55_AAAA, 0xFFAA_33AA, 0xFF0D_0068]

  /** One unpacked keypoint: its canvas location and confidence. */
  datatype Slot = Slot(location: Point, confidence: real)

  /** A joint of the skeleton: two slot indices and the paint colour. */
  datatype Limb = Limb(a: nat, b: nat, color: Color)

  /** The joints draw_single_box draws, in drawing order: left arm, right
      arm, left leg, right leg, then the four torso edges. */
  const Skeleton: seq<Limb> := [
    Limb(5, 7, Magenta), Limb(7, 9, Magenta),
    Limb(6, 8, Cyan), Limb(8, 10, Cyan),
    Limb(11, 13, Blue), Limb(13, 15, Blue),
    Limb(12, 14, Green), Limb(14, 16, Green),
    Limb(5, 6, Yellow), Limb(5, 11, Yellow), Limb(6, 12, Yellow), Limb(11, 12, Yellow)]

  /** What draw_single_box puts on the canvas. */
  datatype DrawOp =
    | Outline                                  // the fixed rounded rectangle, drawn first
    | Dot(slot: nat, center: Point)            // a filled green circle of radius 10
    | Segment(limb: Limb, from: Point, to: Point)

  /** The runtime exceptions draw_single_box can raise while unpacking. */
  datatype DrawError =
    | MissingLocation   // a pose whose location is null
    | TooManyPoses      // an 18th pose overruns the 17 slots

  /** The slot the n-th pose fills before mapping: "left" becomes x and
      "top" becomes y, both scaled. */
  function SlotOf(r: Rect, confidence: real): Slot {
    Slot(Point(r.left * PoseScale, r.top * PoseScale), confidence)
  }

  const EmptySlot: Slot := Slot(Point(0.0, 0.0), 0.0)

  /** The unpacking loop from pose `n` on, over slots already filled below `n`. */
  function UnpackFrom(poses: seq<Recognition>, n: nat, slots: seq<Slot>): (r: Result<seq<Slot>, DrawError>)
    requires n <= |poses| && n <= SlotCount && |slots| == SlotCount
    ensures r.Ok? <==> |poses| <= SlotCount && forall m | n <= m < |poses| :: poses[m].location.Some?
    ensures r.Ok? ==> (|r.value| == SlotCount &&
      (forall m | n <= m < |poses| :: r.value[m] == SlotOf(poses[m].location.value, poses[m].confidence)) &&
      (forall m | 0 <= m < SlotCount && !(n <= m < |poses|) :: r.value[m] == slots[m]))
    ensures r == Err(TooManyPoses) ==> SlotCount < |poses| && forall m | n <= m <= SlotCount :: poses[m].location.Some?
    ensures r == Err(MissingLocation) ==> exists m | n <= m < |poses| && m <= SlotCount :: poses[m].location.None?
    decreases |poses| - n
  {
    if n == |poses| then Ok(slots)
    else if poses[n].location.None? then Err(MissingLocation)
    else if n >= SlotCount then Err(TooManyPoses)
    else UnpackFrom(poses, n + 1, slots[n := SlotOf(poses[n].location.value, poses[n].confidence)])
  }

  /** The unpacking loop of draw_single_box: pose n fills slot n; slots with
      no pose keep location (0, 0) and confidence 0. */
  function Unpack(poses: seq<Recognition>): (r: Result<seq<Slot>, DrawError>)
    ensures r.Ok? <==> |poses| <= SlotCount && forall n | 0 <= n < |poses| :: poses[n].location.Some?
    ensures r.Ok? ==> (|r.value| == SlotCount &&
      (forall n | 0 <= n < |poses| :: r.value[n] == SlotOf(poses[n].location.value, poses[n].confidence)) &&
      (forall n | |poses| <= n < SlotCount :: r.value[n] == EmptySlot))
  {
    UnpackFrom(poses, 0, seq(SlotCount, _ => EmptySlot))
  }

  /** mapPoints: every slot location goes through the frame-to-canvas map. */
  function MapSlots(slots: seq<Slot>, toCanvas: Point -> Point): (r: seq<Slot>)
    ensures |r| == |slots|
    ensures forall n | 0 <= n < |slots| :: r[n] == Slot(toCanvas(slots[n].location), slots[n].confidence)
  {
    seq(|slots|, n requires 0 <= n < |slots| => Slot(toCanvas(slots[n].location), slots[n].confidence))
  }

  predicate KeypointVisible(s: Slot) {
    s.confidence > MinPoseConf
  }

  predicate JointVisible(s: Slot, t: Slot) {
    s.confidence > MinPartConf && t.confidence > MinPartConf
  }

  /** draw_keypoint over slots 0 .. n-1, in slot order. */
  function DrawKeypoints(slots: seq<Slot>, n: nat): (ops: seq<DrawOp>)
    requires n <= |slots|
    ensures |ops| <= n
    ensures (forall m | 0 <= m < n :: KeypointVisible(slots[m])) ==> |ops| == n
    ensures forall op | op in ops :: op.Dot? && op.slot < n && op == Dot(op.slot, slots[op.slot].location) && KeypointVisible(slots[op.slot])
    ensures forall m | 0 <= m < n && KeypointVisible(slots[m]) :: Dot(m, slots[m].location) in ops
    ensures forall i, j | 0 <= i < j < |ops| :: ops[i].slot < ops[j].slot
    decreases n
  {
    if n == 0 then []
    else
      var prev := DrawKeypoints(slots, n - 1);
      if KeypointVisible(slots[n - 1]) then prev + [Dot(n - 1, slots[n - 1].location)] else prev
  }

  function SegmentOf(slots: seq<Slot>, l: Limb): DrawOp
    requires l.a < |slots| && l.b < |slots|
  {
    Segment(l, slots[l.a].location, slots[l.b].location)
  }

  /** Every limb of `limbs` joins two of `n` slots. */
  predicate LimbsFit(limbs: seq<Limb>, n: nat) {
    forall i | 0 <= i < |limbs| :: limbs[i].a < n && limbs[i].b < n
  }

  predicate LimbVisible(slots: seq<Slot>, l: Limb)
    requires l.a < |slots| && l.b < |slots|
  {
    JointVisible(slots[l.a], slots[l.b])
  }

  /** draw_joint over a table of limbs, in table order. */
  function DrawJoints(slots: seq<Slot>, limbs: seq<Limb>): (ops: seq<DrawOp>)
    requires LimbsFit(limbs, |slots|)
    ensures |ops| <= |limbs|
    ensures (forall i | 0 <= i < |limbs| :: LimbVisible(slots, limbs[i])) ==> |ops| == |limbs|
    ensures forall op | op in ops ::
      (op.Segment? && op.limb in limbs && op.limb.a < |slots| && op.limb.b < |slots| &&
       op == SegmentOf(slots, op.limb) && LimbVisible(slots, op.limb))
    ensures forall i | 0 <= i < |limbs| && LimbVisible(slots, limbs[i]) :: SegmentOf(slots, limbs[i]) in ops
  {
    if limbs == [] then []
    else
      var rest := DrawJoints(slots, limbs[1..]);
      assert forall i | 1 <= i < |limbs| :: limbs[i] == limbs[1..][i - 1];
      if LimbVisible(slots, limbs[0]) then [SegmentOf(slots, limbs[0])] + rest else rest
  }

  /** draw_joint runs over the table in order: the segments of a
      concatenated table are the segments of its parts, concatenated. */
  lemma {:induction false} DrawJointsAppend(slots: seq<Slot>, a: seq<Limb>, b: seq<Limb>)
    requires LimbsFit(a, |slots|) && LimbsFit(b, |slots|)
    ensures LimbsFit(a + b, |slots|)
    ensures DrawJoints(slots, a + b) == DrawJoints(slots, a) + DrawJoints(slots, b)
    decreases |a|
  {
    assert forall i | 0 <= i < |a + b| :: (a + b)[i] == if i < |a| then a[i] else b[i - |a|];
    if a == [] {
      assert a + b == b;
    } else {
      assert (a + b)[1..] == a[1..] + b;
      assert LimbsFit(a[1..], |slots|) by {
        assert forall i | 0 <= i < |a[1..]| :: a[1..][i] == a[i + 1];
      }
      DrawJointsAppend(slots, a[1..], b);
    }
  }

  /** The slots some limb of the skeleton ends at. */
  function JoinedSlots(): set<nat> {
    (set i | 0 <= i < |Skeleton| :: Skeleton[i].a) + (set i | 0 <= i < |Skeleton| :: Skeleton[i].b)
  }

  /** The skeleton joins slots 5 to 16 only, each of them at least once, and
      leaves the face slots 0 to 4 as standalone dots. */
  lemma SkeletonShape()
    ensures |Skeleton| == 12
    ensures forall i | 0 <= i < |Skeleton| ::
      FaceSlots <= Skeleton[i].a < SlotCount && FaceSlots <= Skeleton[i].b < SlotCount && Skeleton[i].a != Skeleton[i].b
    ensures LimbsFit(Skeleton, SlotCount)
    ensures forall n | FaceSlots <= n < SlotCount :: n in JoinedSlots()
  {
    assert Skeleton[0].a == 5 && Skeleton[3].b == 10 && Skeleton[1].b == 9 && Skeleton[2].a == 6;
    assert Skeleton[0].b == 7 && Skeleton[2].b == 8 && Skeleton[4].a == 11 && Skeleton[6].a == 12;
    assert Skeleton[4].b == 13 && Skeleton[6].b == 14 && Skeleton[5].b == 15 && Skeleton[7].b == 16;
  }

  /** What draw_single_box draws once the slots are filled and mapped. */
  function DrawPose(slots: seq<Slot>): (ops: seq<DrawOp>)
    requires |slots| == SlotCount
    ensures 0 < |ops| && ops[0] == Outline
  {
    SkeletonShape();
    [Outline] + DrawKeypoints(slots, FaceSlots) + DrawJoints(slots, Skeleton)
  }

  /** A dot for slot k is drawn if and only if k is a face slot whose
      confidence is strictly above 0.1. */
  lemma DotInPoseIff(slots: seq<Slot>, k: nat)
    requires |slots| == SlotCount && k < SlotCount
    ensures (exists op | op in DrawPose(slots) :: op.Dot? && op.slot == k) <==> (k < FaceSlots && slots[k].confidence > 0.1)
  {
    SkeletonShape();
    var dots := DrawKeypoints(slots, FaceSlots);
    var segs := DrawJoints(slots, Skeleton);
    assert DrawPose(slots) == [Outline] + dots + segs;
    if k < FaceSlots && slots[k].confidence > 0.1 {
      assert Dot(k, slots[k].location) in dots;
      assert Dot(k, slots[k].location) in DrawPose(slots);
    }
  }

  /** The segment for limb i of the skeleton is drawn if and only if both end
      slots have a confidence strictly above 0.5; no other segment is drawn. */
  lemma SegmentInPoseIff(slots: seq<Slot>, i: nat)
    requires |slots| == SlotCount && i < |Skeleton|
    ensures Skeleton[i].a < SlotCount && Skeleton[i].b < SlotCount
    ensures SegmentOf(slots, Skeleton[i]) in DrawPose(slots)
        <==> slots[Skeleton[i].a].confidence > 0.5 && slots[Skeleton[i].b].confidence > 0.5
    ensures forall op | op in DrawPose(slots) && op.Segment? :: op.limb in Skeleton
  {
    SkeletonShape();
    var dots := DrawKeypoints(slots, FaceSlots);
    var segs := DrawJoints(slots, Skeleton);
    var ops := DrawPose(slots);
    assert ops == [Outline] + dots + segs;
    assert forall op | op in ops && op.Segment? :: op in segs;
    assert SegmentOf(slots, Skeleton[i]) in ops <==> SegmentOf(slots, Skeleton[i]) in segs;
  }

  /** When every slot is confident beyond both thresholds, everything is
      drawn: the outline, the five face dots and the twelve segments. */
  lemma ConfidentPoseDrawsAll(slots: seq<Slot>)
    requires |slots| == SlotCount
    requires forall n | 0 <= n < SlotCount :: slots[n].confidence > MinPartConf
    ensures |DrawPose(slots)| == 1 + 5 + 12
    ensures forall k | 0 <= k < FaceSlots :: Dot(k, slots[k].location) in DrawPose(slots)
    ensures forall i | 0 <= i < |Skeleton| ::
      Skeleton[i].a < SlotCount && Skeleton[i].b < SlotCount && SegmentOf(slots, Skeleton[i]) in DrawPose(slots)
  {
    SkeletonShape();
    AllDotsDrawn(slots);
    AllSegmentsDrawn(slots);
    var dots := DrawKeypoints(slots, FaceSlots);
    var segs := DrawJoints(slots, Skeleton);
    assert DrawPose(slots) == [Outline] + dots + segs;
  }

  lemma AllDotsDrawn(slots: seq<Slot>)
    requires |slots| == SlotCount
    requires forall n | 0 <= n < SlotCount :: slots[n].confidence > MinPartConf
    ensures |DrawKeypoints(slots, FaceSlots)| == FaceSlots
    ensures forall k | 0 <= k < FaceSlots :: Dot(k, slots[k].location) in DrawKeypoints(slots, FaceSlots)
  {
    assert forall m | 0 <= m < FaceSlots :: KeypointVisible(slots[m]);
  }

  lemma AllSegmentsDrawn(slots: seq<Slot>)
    requires |slots| == SlotCount
    requires forall n | 0 <= n < SlotCount :: slots[n].confidence > MinPartConf
    ensures LimbsFit(Skeleton, |slots|)
    ensures |DrawJoints(slots, Skeleton)| == |Skeleton|
    ensures forall i | 0 <= i < |Skeleton| ::
      Skeleton[i].a < SlotCount && Skeleton[i].b < SlotCount && SegmentOf(slots, Skeleton[i]) in DrawJoints(slots, Skeleton)
  {
    SkeletonShape();
    assert forall i | 0 <= i < |Skeleton| :: LimbVisible(slots, Skeleton[i]);
  }

  /** draw_single_box: nothing when the pose list is null; otherwise the
      unpacked slots are mapped to the canvas and drawn. */
  function DrawSingleBox(poses: Option<seq<Recognition>>, toCanvas: Point -> Point): (r: Result<seq<DrawOp>, DrawError>)
    ensures poses.None? ==> r == Ok([])
    ensures poses.Some? ==> (r.Ok? <==> Unpack(poses.value).Ok?)
    ensures poses.Some? && r.Ok? ==> 0 < |r.value| && r.value[0] == Outline
  {
    match poses
    case None => Ok([])
    case Some(ps) =>
      match Unpack(ps)
      case Err(e) => Err(e)
      case Ok(raw) => Ok(DrawPose(MapSlots(raw, toCanvas)))
  }

  /** The confidence slot n ends up with: the n-th pose's, or 0. */
  function SlotConfidence(poses: seq<Recognition>, n: nat): real {
    if n < |poses| then poses[n].confidence else 0.0
  }

  /** The slots draw_single_box draws from, when unpacking succeeds. */
  function CanvasSlots(poses: seq<Recognition>, toCanvas: Point -> Point): (slots: seq<Slot>)
    requires Unpack(poses).Ok?
    ensures |slots| == SlotCount
    ensures forall n | 0 <= n < SlotCount :: slots[n].confidence == SlotConfidence(poses, n)
    ensures forall n | 0 <= n < |poses| ::
      slots[n].location == toCanvas(Point(2.0 * poses[n].location.value.left, 2.0 * poses[n].location.value.top))
    ensures forall n | |poses| <= n < SlotCount :: slots[n].location == toCanvas(Point(0.0, 0.0))
    ensures DrawSingleBox(Some(poses), toCanvas) == Ok(DrawPose(slots))
  {
    MapSlots(Unpack(poses).value, toCanvas)
  }

  /** A face dot for slot k is drawn if and only if k is one of slots 0 to 4
      and its confidence is strictly above 0.1. */
  lemma DotDrawnIff(poses: seq<Recognition>, toCanvas: Point -> Point, k: nat)
    requires Unpack(poses).Ok? && k < SlotCount
    ensures (exists op | op in DrawSingleBox(Some(poses), toCanvas).value :: op.Dot? && op.slot == k)
        <==> (k < 5 && SlotConfidence(poses, k) > 0.1)
  {
    DotInPoseIff(CanvasSlots(poses, toCanvas), k);
  }

  /** draw_single_box on a pose list whose every slot is confident beyond
      both thresholds draws the outline, the five face dots and the twelve
      segments. */
  lemma ConfidentPosesDrawAll(poses: seq<Recognition>, toCanvas: Point -> Point)
    requires Unpack(poses).Ok?
    requires forall n | 0 <= n < SlotCount :: SlotConfidence(poses, n) > MinPartConf
    ensures DrawSingleBox(Some(poses), toCanvas).Ok?
    ensures |DrawSingleBox(Some(poses), toCanvas).value| == 1 + 5 + 12
    ensures forall k | 0 <= k < FaceSlots ::
      Dot(k, CanvasSlots(poses, toCanvas)[k].location) in DrawSingleBox(Some(poses), toCanvas).value
    ensures forall i | 0 <= i < |Skeleton| ::
      Skeleton[i].a < SlotCount && Skeleton[i].b < SlotCount &&
      SegmentOf(CanvasSlots(poses, toCanvas), Skeleton[i]) in DrawSingleBox(Some(poses), toCanvas).value
  {
    ConfidentPoseDrawsAll(CanvasSlots(poses, toCanvas));
  }

  /** A skeleton segment is drawn if and only if both its end slots have a
      confidence strictly above 0.5; no other segment is drawn. */
  lemma SegmentDrawnIff(poses: seq<Recognition>, toCanvas: Point -> Point, i: nat)
    requires Unpack(poses).Ok? && i < |Skeleton|
    ensures Skeleton[i].a < SlotCount && Skeleton[i].b < SlotCount
    ensures SegmentOf(CanvasSlots(poses, toCanvas), Skeleton[i]) in DrawSingleBox(Some(poses), toCanvas).value
        <==> SlotConfidence(poses, Skeleton[i].a) > 0.5 && SlotConfidence(poses, Skeleton[i].b) > 0.5
    ensures forall op | op in DrawSingleBox(Some(poses), toCanvas).value && op.Segment? :: op.limb in Skeleton
  {
    SegmentInPoseIff(CanvasSlots(poses, toCanvas), i);
  }

  // ---------------------------------------------------------------------------
  // processResults

  /** An entry of screenRects: the confidence and the mapped rectangle. */
  datatype ScreenRect = ScreenRect(confidence: real, rect: Rect)

  datatype TrackedRecognition = TrackedRecognition(location: Rect, detectionConfidence: real, color: Color, title: string)

  /** The tracker state processResults rewrites. */
  datatype TrackerState = TrackerState(screenRects: seq<ScreenRect>, trackedObjects: seq<TrackedRecognition>)

  /** A frame rectangle too small to track. */
  predicate Degenerate(r: Rect) {
    r.Width() < MinSize || r.Height() < MinSize
  }

  function ScreenEntry(res: Recognition, toScreen: Rect -> Rect): ScreenRect
    requires res.location.Some?
  {
    ScreenRect(res.confidence, toScreen(res.location.value))
  }

  /** The screenRects loop: one entry per result with a location, in order. */
  function ScreenRects(results: seq<Recognition>, toScreen: Rect -> Rect): (r: seq<ScreenRect>)
    ensures |r| <= |results|
    ensures (forall i | 0 <= i < |results| :: results[i].location.Some?) ==> |r| == |results|
    ensures forall i | 0 <= i < |results| && results[i].location.Some? :: ScreenEntry(results[i], toScreen) in r
    ensures forall e | e in r :: exists res | res in results && res.location.Some? :: e == ScreenEntry(res, toScreen)
  {
    if results == [] then []
    else
      var rest := ScreenRects(results[1..], toScreen);
      assert forall i | 1 <= i < |results| :: results[i] == results[1..][i - 1];
      if results[0].location.None? then rest else [ScreenEntry(results[0], toScreen)] + rest
  }

  /** screenRects keeps the order of the results: the entries of a
      concatenation are the entries of its parts, concatenated. */
  lemma {:induction false} ScreenRectsAppend(a: seq<Recognition>, b: seq<Recognition>, toScreen: Rect -> Rect)
    ensures ScreenRects(a + b, toScreen) == ScreenRects(a, toScreen) + ScreenRects(b, toScreen)
    decreases |a|
  {
    if a == [] {
      assert a + b == b;
    } else {
      assert (a + b)[1..] == a[1..] + b;
      ScreenRectsAppend(a[1..], b, toScreen);
    }
  }

  /** rectsToTrack: the results with a location that is not degenerate, in order. */
  function RectsToTrack(results: seq<Recognition>): (r: seq<Recognition>)
    ensures |r| <= |results|
    ensures forall t | t in r :: t in results && t.location.Some? && !Degenerate(t.location.value)
    ensures forall t | t in results && t.location.Some? && !Degenerate(t.location.value) :: t in r
  {
    if results == [] then []
    else
      var rest := RectsToTrack(results[1..]);
      if results[0].location.Some? && !Degenerate(results[0].location.value) then [results[0]] + rest else rest
  }

  /** rectsToTrack keeps the order of the results. */
  lemma {:induction false} RectsToTrackAppend(a: seq<Recognition>, b: seq<Recognition>)
    ensures RectsToTrack(a + b) == RectsToTrack(a) + RectsToTrack(b)
    decreases |a|
  {
    if a == [] {
      assert a + b == b;
    } else {
      assert (a + b)[1..] == a[1..] + b;
      RectsToTrackAppend(a[1..], b);
    }
  }

  /** The tracking loop: candidate i gets COLORS[start + i]; the loop stops
      once the palette is used up. */
  function AssignColors(cands: seq<Recognition>, start: nat): (r: seq<TrackedRecognition>)
    requires forall t | t in cands :: t.location.Some?
    requires start < |Colors|
    ensures |r| == Min(|cands|, |Colors| - start)
    ensures forall i | 0 <= i < |r| ::
      r[i] == TrackedRecognition(cands[i].location.value, cands[i].confidence, Colors[start + i], cands[i].title)
    decreases |cands|
  {
    if cands == [] then []
    else
      var head := TrackedRecognition(cands[0].location.value, cands[0].confidence, Colors[start], cands[0].title);
      if start + 1 >= |Colors| then [head]
      else [head] + AssignColors(cands[1..], start + 1)
  }

  /** processResults: screenRects is rebuilt from the located results; the
      tracked objects are replaced by the non-degenerate ones, coloured by
      index and capped at the palette size, unless there are none. */
  function ProcessResults(results: seq<Recognition>, prior: seq<TrackedRecognition>, toScreen: Rect -> Rect): (s: TrackerState)
    ensures |s.screenRects| <= |results|
    ensures forall i | 0 <= i < |results| && results[i].location.Some? :: ScreenEntry(results[i], toScreen) in s.screenRects
    ensures forall e | e in s.screenRects :: exists res | res in results && res.location.Some? :: e == ScreenEntry(res, toScreen)
    ensures (forall t | t in results :: t.location.None? || Degenerate(t.location.value)) ==> s.trackedObjects == prior
    ensures !(forall t | t in results :: t.location.None? || Degenerate(t.location.value)) ==>
      0 < |s.trackedObjects| <= |Colors| &&
      forall i | 0 <= i < |s.trackedObjects| ::
        s.trackedObjects[i].color == Colors[i] && !Degenerate(s.trackedObjects[i].location) &&
        exists t | t in results ::
          t.location == Some(s.trackedObjects[i].location) &&
          t.confidence == s.trackedObjects[i].detectionConfidence && t.title == s.trackedObjects[i].title
    ensures !(forall t | t in results :: t.location.None? || Degenerate(t.location.value)) ==>
      |s.trackedObjects| == Min(|RectsToTrack(results)|, |Colors|) &&
      forall i | 0 <= i < |s.trackedObjects| ::
        s.trackedObjects[i] == TrackedRecognition(RectsToTrack(results)[i].location.value, RectsToTrack(results)[i].confidence,
                                                  Colors[i], RectsToTrack(results)[i].title)
    ensures s.screenRects == ScreenRects(results, toScreen)
  {
    var screen := ScreenRects(results, toScreen);
    var cands := RectsToTrack(results);
    if cands == [] then TrackerState(screen, prior)
    else
      var tracked := AssignColors(cands, 0);
      assert forall i | 0 <= i < |tracked| :: cands[i] in cands;
      TrackerState(screen, tracked)
  }
}

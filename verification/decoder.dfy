/** The heatmap decoder of ClassifierFloatMobileNet: for every keypoint class
    it finds the first strict maximum of the score grid in row-major order,
    reads the short-range offsets at that cell and turns them into a pixel
    location; runInference then packs the 17 locations into zero-size
    rectangles with a fixed confidence. Scores and offsets are `real`. */
module Decoder {
  import opened Common

  /** Keypoint classes (num_classes). */
  const NumClasses: nat := 17
  /** Extent of the score and offset grids: 23 rows by 17 columns. */
  const GridRows: nat := 23
  const GridCols: nat := 17
  /** Depth of the short-offset grid: vertical offsets, then horizontal ones. */
  const OffsetDepth: nat := 2 * NumClasses
  /** Pixels per grid cell (output_stride). */
  const OutputStride: real := 32.0
  /** Horizontal extent used for the flip (x_max = num_classes * output_stride). */
  const XMax: real := NumClasses as real * OutputStride
  /** The confidence runInference attaches to every recognition. */
  const PackedConfidence: real := 0.9

  /** A grid indexed [row][column][channel]; the batch dimension of size 1 is dropped. */
  type Grid = seq<seq<seq<real>>>

  predicate WellShaped(g: Grid, depth: nat) {
    |g| == GridRows &&
    forall i | 0 <= i < |g| :: |g[i]| == GridCols && forall j | 0 <= j < |g[i]| :: |g[i][j]| == depth
  }

  /** The shapes of labelProbArray[0] and short_offsets[0]. */
  predicate ValidInput(scores: Grid, offsets: Grid) {
    WellShaped(scores, NumClasses) && WellShaped(offsets, OffsetDepth)
  }

  datatype Cell = Cell(row: nat, col: nat)

  const Origin: Cell := Cell(0, 0)

  predicate InGrid(c: Cell) {
    c.row < GridRows && c.col < GridCols
  }

  /** `a` is visited strictly before `b` by the row-major scan. */
  predicate Before(a: Cell, b: Cell) {
    a.row < b.row || (a.row == b.row && a.col < b.col)
  }

  function Score(g: Grid, c: Cell, k: nat): real
    requires WellShaped(g, NumClasses) && InGrid(c) && k < NumClasses
  {
    g[c.row][c.col][k]
  }

  function Offset(off: Grid, c: Cell, ch: nat): real
    requires WellShaped(off, OffsetDepth) && InGrid(c) && ch < OffsetDepth
  {
    off[c.row][c.col][ch]
  }

  /** Reference definition of the winner for class `k`: a cell holding the
      maximum score that no earlier cell in scan order already attains. */
  ghost predicate IsFirstMax(g: Grid, k: nat, c: Cell)
    requires WellShaped(g, NumClasses) && k < NumClasses
  {
    InGrid(c) &&
    (forall d | InGrid(d) :: Score(g, d, k) <= Score(g, c, k)) &&
    (forall d | InGrid(d) && Before(d, c) :: Score(g, d, k) < Score(g, c, k))
  }

  /** The running maximum and its cell. */
  datatype Best = Best(score: real, cell: Cell)

  /** The state of the scan of class `k` once every cell before (row, col)
      has been compared; the scan starts from the score of cell (0, 0) and
      moves only on a strict improvement. */
  function Scanned(g: Grid, k: nat, row: nat, col: nat): (b: Best)
    requires WellShaped(g, NumClasses) && k < NumClasses
    requires (row < GridRows && col <= GridCols) || (row == GridRows && col == 0)
    ensures InGrid(b.cell) && b.score == Score(g, b.cell, k)
    decreases row, col
  {
    if col == 0 then
      if row == 0 then Best(Score(g, Origin, k), Origin)
      else Scanned(g, k, row - 1, GridCols)
    else
      var b := Scanned(g, k, row, col - 1);
      var c := Cell(row, col - 1);
      if Score(g, c, k) > b.score then Best(Score(g, c, k), c) else b
  }

  /** The loop invariant of the scan: the running best is the first maximum
      of the cells compared so far. */
  lemma {:induction false} ScannedIsPrefixFirstMax(g: Grid, k: nat, row: nat, col: nat)
    requires WellShaped(g, NumClasses) && k < NumClasses
    requires (row < GridRows && col <= GridCols) || (row == GridRows && col == 0)
    ensures var b := Scanned(g, k, row, col);
      (b.cell == Origin || Before(b.cell, Cell(row, col))) &&
      (forall d | InGrid(d) && Before(d, Cell(row, col)) :: Score(g, d, k) <= b.score) &&
      (forall d | InGrid(d) && Before(d, b.cell) :: Score(g, d, k) < b.score)
    decreases row, col
  {
    if col == 0 {
      if row != 0 {
        ScannedIsPrefixFirstMax(g, k, row - 1, GridCols);
      }
    } else {
      ScannedIsPrefixFirstMax(g, k, row, col - 1);
    }
  }

  /** The state the scan of class `k` ends in, once every cell is compared. */
  function ScanResult(g: Grid, k: nat): (b: Best)
    requires WellShaped(g, NumClasses) && k < NumClasses
    ensures InGrid(b.cell) && b.score == Score(g, b.cell, k)
  {
    Scanned(g, k, GridRows, 0)
  }

  /** The cell the scan of class `k` ends on. */
  function ArgMaxFirst(g: Grid, k: nat): (c: Cell)
    requires WellShaped(g, NumClasses) && k < NumClasses
    ensures IsFirstMax(g, k, c)
  {
    ScannedIsPrefixFirstMax(g, k, GridRows, 0);
    ScanResult(g, k).cell
  }

  /** At most one cell is the first maximum. */
  lemma FirstMaxUnique(g: Grid, k: nat, c1: Cell, c2: Cell)
    requires WellShaped(g, NumClasses) && k < NumClasses
    requires IsFirstMax(g, k, c1) && IsFirstMax(g, k, c2)
    ensures c1 == c2
  {
    assert Score(g, c1, k) == Score(g, c2, k);
  }

  /** The pixel location the decoder derives from cell `c`: the row gives y,
      the column gives x through a horizontal flip about XMax. */
  function CellLocation(off: Grid, k: nat, c: Cell): (p: Point)
    requires WellShaped(off, OffsetDepth) && k < NumClasses && InGrid(c)
    ensures p.x == 496.0 - 32.0 * c.col as real - Offset(off, c, k + NumClasses)
    ensures p.y == 32.0 * c.row as real - 16.0 + Offset(off, c, k)
  {
    var offsetY := Offset(off, c, k);
    var offsetX := Offset(off, c, k + NumClasses);
    Point(XMax - ((c.col + 1) as real * OutputStride + offsetX + OutputStride / 2.0),
          c.row as real * OutputStride + offsetY - OutputStride / 2.0)
  }

  /** The location left in poses_x / poses_y for a winning cell: the
      location formula is applied only when the scan moved off cell (0, 0). */
  function PoseOf(off: Grid, k: nat, c: Cell): Point
    requires WellShaped(off, OffsetDepth) && k < NumClasses && InGrid(c)
  {
    if c == Origin then Point(0.0, 0.0) else CellLocation(off, k, c)
  }

  /** The decoded result of one class: winning cell, location and tmp_max. */
  datatype ClassPose = ClassPose(cell: Cell, location: Point, maxScore: real)

  function DecodeClass(scores: Grid, offsets: Grid, k: nat): (p: ClassPose)
    requires ValidInput(scores, offsets) && k < NumClasses
    ensures IsFirstMax(scores, k, p.cell)
    ensures p.maxScore == Score(scores, p.cell, k)
    ensures p.location == PoseOf(offsets, k, p.cell)
  {
    var c := ArgMaxFirst(scores, k);
    ClassPose(c, PoseOf(offsets, k, c), Score(scores, c, k))
  }

  /** Whatever cell satisfies the reference definition, the decoder reports
      its score as tmp_max and its location as the pose. */
  lemma DecodeClassMatchesReference(scores: Grid, offsets: Grid, k: nat, c: Cell)
    requires ValidInput(scores, offsets) && k < NumClasses
    requires IsFirstMax(scores, k, c)
    ensures DecodeClass(scores, offsets, k) == ClassPose(c, PoseOf(offsets, k, c), Score(scores, c, k))
  {
    FirstMaxUnique(scores, k, c, DecodeClass(scores, offsets, k).cell);
  }

  /** The scan stays on cell (0, 0), and the pose stays (0, 0), exactly when
      no cell scores strictly more than cell (0, 0). */
  lemma StaysAtOriginIff(scores: Grid, offsets: Grid, k: nat)
    requires ValidInput(scores, offsets) && k < NumClasses
    ensures DecodeClass(scores, offsets, k).cell == Origin
        <==> forall d | InGrid(d) :: Score(scores, d, k) <= Score(scores, Origin, k)
    ensures DecodeClass(scores, offsets, k).cell == Origin ==> DecodeClass(scores, offsets, k).location == Point(0.0, 0.0)
  {
    var p := DecodeClass(scores, offsets, k);
    if p.cell != Origin {
      assert Before(Origin, p.cell);
      assert Score(scores, Origin, k) < Score(scores, p.cell, k);
    }
  }

  /** Classes are independent: class `k` reads only score channel `k` and
      offset channels `k` and `k + 17`. */
  lemma ClassesIndependent(s1: Grid, o1: Grid, s2: Grid, o2: Grid, k: nat)
    requires ValidInput(s1, o1) && ValidInput(s2, o2) && k < NumClasses
    requires forall d | InGrid(d) :: Score(s1, d, k) == Score(s2, d, k)
    requires forall d | InGrid(d) :: Offset(o1, d, k) == Offset(o2, d, k)
    requires forall d | InGrid(d) :: Offset(o1, d, k + NumClasses) == Offset(o2, d, k + NumClasses)
    ensures DecodeClass(s1, o1, k) == DecodeClass(s2, o2, k)
  {
    var c1 := DecodeClass(s1, o1, k).cell;
    assert IsFirstMax(s2, k, c1);
    DecodeClassMatchesReference(s2, o2, k, c1);
  }

  /** With zero offsets the winning cell (row, col) maps to
      (496 - 32 * col, 32 * row - 16): stride 32 and x_max = 544. */
  lemma ZeroOffsetLocation(off: Grid, k: nat, c: Cell)
    requires WellShaped(off, OffsetDepth) && k < NumClasses && InGrid(c)
    requires Offset(off, c, k) == 0.0 && Offset(off, c, k + NumClasses) == 0.0
    ensures CellLocation(off, k, c) == Point(496.0 - 32.0 * c.col as real, 32.0 * c.row as real - 16.0)
  {
  }

  /** One step of the scan: cell (row, col) replaces the running best only
      when it scores strictly more, which never happens at cell (0, 0). */
  lemma ScannedStep(g: Grid, k: nat, row: nat, col: nat)
    requires WellShaped(g, NumClasses) && k < NumClasses
    requires row < GridRows && col < GridCols
    ensures var b := Scanned(g, k, row, col);
      Scanned(g, k, row, col + 1) ==
        if Score(g, Cell(row, col), k) > b.score then Best(Score(g, Cell(row, col), k), Cell(row, col)) else b
    ensures Score(g, Cell(row, col), k) > Scanned(g, k, row, col).score ==> Cell(row, col) != Origin
  {
  }

  /** Finishing a row is starting the next one. */
  lemma ScannedNextRow(g: Grid, k: nat, row: nat)
    requires WellShaped(g, NumClasses) && k < NumClasses
    requires row < GridRows
    ensures Scanned(g, k, row + 1, 0) == Scanned(g, k, row, GridCols)
  {
  }

  /** The end state of the scan is the decoded result. */
  lemma ScanEndsAtDecode(scores: Grid, offsets: Grid, k: nat)
    requires ValidInput(scores, offsets) && k < NumClasses
    ensures var b := ScanResult(scores, k);
      DecodeClass(scores, offsets, k) == ClassPose(b.cell, PoseOf(offsets, k, b.cell), b.score)
  {
  }

  /** A score grid that is zero everywhere except `v` at (row, col) in channel `k`. */
  function SinglePeak(row: nat, col: nat, k: nat, v: real): (g: Grid)
    ensures WellShaped(g, NumClasses)
  {
    seq(GridRows, i => seq(GridCols, j => seq(NumClasses, c => if i == row && j == col && c == k then v else 0.0)))
  }

  function ZeroOffsets(): (g: Grid)
    ensures WellShaped(g, OffsetDepth)
  {
    seq(GridRows, i => seq(GridCols, j => seq(OffsetDepth, c => 0.0)))
  }

  lemma SinglePeakScores(row: nat, col: nat, k: nat, v: real, c: nat)
    requires InGrid(Cell(row, col)) && k < NumClasses && c < NumClasses
    ensures forall d | InGrid(d) ::
      Score(SinglePeak(row, col, k, v), d, c) == if d == Cell(row, col) && c == k then v else 0.0
  {
  }

  /** The class holding a single positive peak is decoded at the peak. */
  lemma PeakClassDecodes(row: nat, col: nat, k: nat, v: real)
    requires InGrid(Cell(row, col)) && k < NumClasses && 0.0 < v
    ensures DecodeClass(SinglePeak(row, col, k, v), ZeroOffsets(), k).cell == Cell(row, col)
    ensures DecodeClass(SinglePeak(row, col, k, v), ZeroOffsets(), k).maxScore == v
  {
    var g := SinglePeak(row, col, k, v);
    var c := Cell(row, col);
    SinglePeakScores(row, col, k, v, k);
    assert IsFirstMax(g, k, c);
    DecodeClassMatchesReference(g, ZeroOffsets(), k, c);
  }

  /** A class scoring 0 everywhere keeps cell (0, 0) and pose (0, 0). */
  lemma FlatClassStays(row: nat, col: nat, k: nat, v: real, other: nat)
    requires InGrid(Cell(row, col)) && k < NumClasses && other < NumClasses && other != k
    ensures DecodeClass(SinglePeak(row, col, k, v), ZeroOffsets(), other) == ClassPose(Origin, Point(0.0, 0.0), 0.0)
  {
    var g := SinglePeak(row, col, k, v);
    SinglePeakScores(row, col, k, v, other);
    assert IsFirstMax(g, other, Origin);
    DecodeClassMatchesReference(g, ZeroOffsets(), other, Origin);
  }

  /** A single positive peak away from cell (0, 0) is decoded at its cell's
      centre with its score as tmp_max, while every other class, scoring 0
      everywhere, keeps the pose (0, 0). */
  lemma SinglePeakDecodes(row: nat, col: nat, k: nat, v: real, other: nat)
    requires InGrid(Cell(row, col)) && Cell(row, col) != Origin && k < NumClasses && 0.0 < v
    requires other < NumClasses && other != k
    ensures var p := DecodeClass(SinglePeak(row, col, k, v), ZeroOffsets(), k);
      p.cell == Cell(row, col) && p.maxScore == v &&
      p.location == Point(496.0 - 32.0 * col as real, 32.0 * row as real - 16.0)
    ensures DecodeClass(SinglePeak(row, col, k, v), ZeroOffsets(), other) == ClassPose(Origin, Point(0.0, 0.0), 0.0)
  {
    PeakClassDecodes(row, col, k, v);
    ZeroOffsetLocation(ZeroOffsets(), k, Cell(row, col));
    FlatClassStays(row, col, k, v, other);
  }

  /** Relates the three array slots of class `k` to a scan state. */
  predicate Holds(offsets: Grid, k: nat, b: Best, m: real, x: real, y: real)
    requires WellShaped(offsets, OffsetDepth) && k < NumClasses && InGrid(b.cell)
  {
    m == b.score && Point(x, y) == PoseOf(offsets, k, b.cell)
  }

  /** The innermost loop of getPoses: one row of the scan of class `k`. */
  method ScanRow(scores: Grid, offsets: Grid, k: nat, i: nat, m0: real, x0: real, y0: real)
    returns (m: real, x: real, y: real)
    requires ValidInput(scores, offsets) && k < NumClasses && i < GridRows
    requires Holds(offsets, k, Scanned(scores, k, i, 0), m0, x0, y0)
    ensures Holds(offsets, k, Scanned(scores, k, i + 1, 0), m, x, y)
  {
    m, x, y := m0, x0, y0;
    var j := 0;
    while j < GridCols
      invariant 0 <= j <= GridCols
      invariant Holds(offsets, k, Scanned(scores, k, i, j), m, x, y)
    {
      ScannedStep(scores, k, i, j);
      if scores[i][j][k] > m {
        m := scores[i][j][k];
        y := i as real * OutputStride + offsets[i][j][k] - OutputStride / 2.0;
        x := XMax - ((j + 1) as real * OutputStride + offsets[i][j][k + NumClasses] + OutputStride / 2.0);
      }
      j := j + 1;
    }
    ScannedNextRow(scores, k, i);
  }

  /** The scan of one class inside getPoses (the loops over rows and
      columns): starting from tmp_max[k] = score of cell (0, 0) and a pose of
      (0, 0), it ends holding the maximum score and the pose of the first
      cell attaining it. */
  method ScanClass(scores: Grid, offsets: Grid, k: nat, m0: real, x0: real, y0: real)
    returns (m: real, x: real, y: real)
    requires ValidInput(scores, offsets) && k < NumClasses
    requires m0 == Score(scores, Origin, k) && x0 == 0.0 && y0 == 0.0
    ensures Holds(offsets, k, ScanResult(scores, k), m, x, y)
  {
    m, x, y := m0, x0, y0;
    var i := 0;
    while i < GridRows
      invariant 0 <= i <= GridRows
      invariant Holds(offsets, k, Scanned(scores, k, i, 0), m, x, y)
    {
      m, x, y := ScanRow(scores, offsets, k, i, m, x, y);
      i := i + 1;
    }
    assert ScanResult(scores, k) == Scanned(scores, k, GridRows, 0);
  }

  /** The first loop of getPoses: tmp_max[k] gets the score of cell (0, 0)
      and both pose arrays get 0, whatever they held before. */
  method ResetPoses(scores: Grid, staleX: seq<real>, staleY: seq<real>, staleMax: seq<real>)
    returns (posesX: seq<real>, posesY: seq<real>, tmpMax: seq<real>)
    requires WellShaped(scores, NumClasses)
    requires |staleX| == NumClasses && |staleY| == NumClasses && |staleMax| == NumClasses
    ensures |posesX| == NumClasses && |posesY| == NumClasses && |tmpMax| == NumClasses
    ensures forall k | 0 <= k < NumClasses ::
      tmpMax[k] == Score(scores, Origin, k) && posesX[k] == 0.0 && posesY[k] == 0.0
  {
    posesX, posesY, tmpMax := staleX, staleY, staleMax;
    var k := 0;
    while k < NumClasses
      invariant 0 <= k <= NumClasses
      invariant |posesX| == NumClasses && |posesY| == NumClasses && |tmpMax| == NumClasses
      invariant forall k' | 0 <= k' < k :: tmpMax[k'] == Score(scores, Origin, k') && posesX[k'] == 0.0 && posesY[k'] == 0.0
    {
      tmpMax := tmpMax[k := scores[0][0][k]];
      posesX := posesX[k := 0.0];
      posesY := posesY[k := 0.0];
      k := k + 1;
    }
  }

  /** The scanning loops of getPoses, over every class in turn. */
  method ScanClasses(scores: Grid, offsets: Grid, x0: seq<real>, y0: seq<real>, m0: seq<real>)
    returns (posesX: seq<real>, posesY: seq<real>, tmpMax: seq<real>)
    requires ValidInput(scores, offsets)
    requires |x0| == NumClasses && |y0| == NumClasses && |m0| == NumClasses
    requires forall k | 0 <= k < NumClasses :: m0[k] == Score(scores, Origin, k) && x0[k] == 0.0 && y0[k] == 0.0
    ensures |posesX| == NumClasses && |posesY| == NumClasses && |tmpMax| == NumClasses
    ensures forall k | 0 <= k < NumClasses ::
      Holds(offsets, k, ScanResult(scores, k), tmpMax[k], posesX[k], posesY[k])
  {
    posesX, posesY, tmpMax := x0, y0, m0;
    var k := 0;
    while k < NumClasses
      invariant 0 <= k <= NumClasses
      invariant |posesX| == NumClasses && |posesY| == NumClasses && |tmpMax| == NumClasses
      invariant forall k' | 0 <= k' < k ::
        Holds(offsets, k', ScanResult(scores, k'), tmpMax[k'], posesX[k'], posesY[k'])
      invariant forall k' | k <= k' < NumClasses ::
        tmpMax[k'] == Score(scores, Origin, k') && posesX[k'] == 0.0 && posesY[k'] == 0.0
    {
      var m, x, y := ScanClass(scores, offsets, k, tmpMax[k], posesX[k], posesY[k]);
      tmpMax, posesX, posesY := tmpMax[k := m], posesX[k := x], posesY[k := y];
      k := k + 1;
    }
  }

  /** getPoses: `staleX`, `staleY` and `staleMax` are whatever poses_x,
      poses_y and tmp_max held before the call; the results do not depend on
      them, so repeated calls on the same grids agree. */
  method GetPoses(scores: Grid, offsets: Grid, staleX: seq<real>, staleY: seq<real>, staleMax: seq<real>)
    returns (posesX: seq<real>, posesY: seq<real>, tmpMax: seq<real>)
    requires ValidInput(scores, offsets)
    requires |staleX| == NumClasses && |staleY| == NumClasses && |staleMax| == NumClasses
    ensures |posesX| == NumClasses && |posesY| == NumClasses && |tmpMax| == NumClasses
    ensures forall k | 0 <= k < NumClasses ::
      IsFirstMax(scores, k, DecodeClass(scores, offsets, k).cell) &&
      tmpMax[k] == DecodeClass(scores, offsets, k).maxScore &&
      Point(posesX[k], posesY[k]) == DecodeClass(scores, offsets, k).location
  {
    var x0, y0, m0 := ResetPoses(scores, staleX, staleY, staleMax);
    posesX, posesY, tmpMax := ScanClasses(scores, offsets, x0, y0, m0);
    forall k | 0 <= k < NumClasses
      ensures tmpMax[k] == DecodeClass(scores, offsets, k).maxScore
      ensures Point(posesX[k], posesY[k]) == DecodeClass(scores, offsets, k).location
    {
      ScanEndsAtDecode(scores, offsets, k);
    }
  }

  /** One recognition of runInference: the pose goes into a zero-size
      rectangle with y in left/right and x in top/bottom. */
  function PackPose(p: Point): Recognition {
    Recognition("Nose", "NoseTitle", PackedConfidence, Some(Rect(p.y, p.x, p.y, p.x)))
  }

  /** runInference after the model has filled the grids: 17 recognitions in
      class order, every one with confidence 0.9 whatever the class's score. */
  function RunInference(scores: Grid, offsets: Grid): (r: seq<Recognition>)
    requires ValidInput(scores, offsets)
    ensures |r| == NumClasses
    ensures forall k | 0 <= k < NumClasses ::
      r[k].confidence == PackedConfidence &&
      r[k].location.Some? &&
      r[k].location.value.right == r[k].location.value.left &&
      r[k].location.value.bottom == r[k].location.value.top &&
      r[k].location.value.left == DecodeClass(scores, offsets, k).location.y &&
      r[k].location.value.top == DecodeClass(scores, offsets, k).location.x
  {
    seq(NumClasses, k requires 0 <= k < NumClasses => PackPose(DecodeClass(scores, offsets, k).location))
  }
}

/** The on-device detector: decodes the YOLO-style output tensor of the
    exported network into candidate predictions (`OutputParser`), suppresses
    overlapping candidates greedily (non-max suppression) and maps the kept
    boxes back to frame pixels (`CustomVisionLocal`).  The network itself
    and `Math.Exp` are parameters: `output` is the tensor read at
    (x, y, channel) and `exp` any positive function. */
module LocalDetection {
  import opened Wrappers
  import opened Geometry
  import opened CameraModel
  import opened TrackedObjects
  import opened Predictions
  import opened Ordering

  const RowCount: nat := 13
  const ColCount: nat := 13
  /** Sized for 20 classes; the decoder below derives its layout from
      `classCount` instead and never reads this constant. */
  const ChannelCount: nat := 125
  const BoxesPerCell: nat := 5
  const BoxInfoFeatureCount: nat := 5
  const CellWidth: real := 32.0
  const CellHeight: real := 32.0
  const NetworkSize: real := 416.0
  /** Width/height ratios of the five anchor boxes, interleaved. */
  const Anchors: seq<real> := [0.57273, 0.677385, 1.87446, 2.06253, 3.33843, 5.47434, 7.88282, 3.52778, 9.77052, 9.16828]
  /** `MINIMUM_CONFIDENCE`. */
  const MinimumConfidence: real := 0.2
  /** The constructor's default IoU threshold. */
  const DefaultIouThreshold: real := 0.45

  type Tensor = (int, int, int) -> real

  ghost predicate PositiveExp(exp: real -> real) {
    forall v :: exp(v) > 0.0
  }

  // ---------------------------------------------------------------------
  // Activation functions

  function Sigmoid(value: real, exp: real -> real): (r: real)
    requires exp(value) > 0.0
    ensures 0.0 < r < 1.0
  {
    var k := exp(value);
    k / (1.0 + k)
  }

  /** For an increasing `exp` the sigmoid is increasing too. */
  lemma SigmoidMonotone(a: real, b: real, exp: real -> real)
    requires 0.0 < exp(a) < exp(b)
    ensures Sigmoid(a, exp) < Sigmoid(b, exp)
  {
    var ka, kb := exp(a), exp(b);
    assert Sigmoid(a, exp) == 1.0 - 1.0 / (1.0 + ka);
    assert Sigmoid(b, exp) == 1.0 - 1.0 / (1.0 + kb);
    ReciprocalDecreasing(1.0 + ka, 1.0 + kb);
  }

  lemma ReciprocalDecreasing(x: real, y: real)
    requires 0.0 < x < y
    ensures 1.0 / y < 1.0 / x
  {
    assert (1.0 / y) * y == 1.0 == (1.0 / x) * x;
  }

  function Sum(s: seq<real>): real
    decreases |s|
  {
    if |s| == 0 then 0.0 else s[0] + Sum(s[1..])
  }

  function MaxOf(s: seq<real>): (m: real)
    requires |s| > 0
    ensures m in s
    ensures forall i :: 0 <= i < |s| ==> s[i] <= m
    decreases |s|
  {
    if |s| == 1 then s[0]
    else
      var rest := MaxOf(s[1..]);
      assert forall i :: 1 <= i < |s| ==> s[i] == s[1..][i - 1];
      if s[0] >= rest then s[0] else rest
  }

  lemma {:induction false} SumPositive(s: seq<real>)
    requires |s| > 0 && forall i :: 0 <= i < |s| ==> s[i] > 0.0
    ensures Sum(s) > 0.0
    decreases |s|
  {
    if |s| > 1 {
      SumPositive(s[1..]);
    }
  }

  lemma {:induction false} SumScaled(s: seq<real>, t: seq<real>, d: real)
    requires d != 0.0 && |t| == |s|
    requires forall i :: 0 <= i < |s| ==> t[i] == s[i] / d
    ensures Sum(t) == Sum(s) / d
    decreases |s|
  {
    if |s| > 0 {
      SumScaled(s[1..], t[1..], d);
      assert Sum(t) == s[0] / d + Sum(s[1..]) / d;
    }
  }

  lemma NormalizedSumsToOne(s: seq<real>, t: seq<real>, d: real)
    requires forall i :: 0 <= i < |s| ==> s[i] > 0.0
    requires d == Sum(s) && d > 0.0
    requires |t| == |s| && forall i :: 0 <= i < |s| ==> t[i] == s[i] / d
    ensures Sum(t) == 1.0
    ensures forall i :: 0 <= i < |t| ==> t[i] > 0.0
  {
    SumScaled(s, t, d);
    QuotientFacts(d, d);
    forall i | 0 <= i < |t|
      ensures t[i] > 0.0
    {
      QuotientFacts(s[i], d);
    }
  }

  lemma QuotientFacts(a: real, d: real)
    requires a > 0.0 && d > 0.0
    ensures a / d > 0.0
    ensures a == d ==> a / d == 1.0
  {
  }

  /** Normalises `values` into a probability distribution. */
  function Softmax(values: seq<real>, exp: real -> real): (r: seq<real>)
    requires |values| > 0 && PositiveExp(exp)
    ensures |r| == |values|
    ensures forall i :: 0 <= i < |r| ==> r[i] > 0.0
    ensures Sum(r) == 1.0
  {
    var maxVal := MaxOf(values);
    var exps := seq(|values|, i requires 0 <= i < |values| => exp(values[i] - maxVal));
    var sumExp := Sum(exps);
    SumPositive(exps);
    var r := seq(|values|, i requires 0 <= i < |values| => exps[i] / sumExp);
    NormalizedSumsToOne(exps, r, sumExp);
    r
  }

  // ---------------------------------------------------------------------
  // Top class

  function ValueOf(p: (nat, real)): real { p.1 }

  function Indexed(s: seq<real>): (ps: seq<(nat, real)>)
    ensures |ps| == |s| && forall i :: 0 <= i < |s| ==> ps[i] == (i, s[i])
  {
    seq(|s|, i requires 0 <= i < |s| => (i, s[i]))
  }

  /** The top class: the first index holding the largest value.  On an
      empty array `First()` throws `InvalidOperation`. */
  function GetTopResult(predictedClasses: seq<real>): (r: Result<(nat, real), ModelError>)
    ensures r.Failure? <==> |predictedClasses| == 0
    ensures r.Failure? ==> r.error == InvalidOperation
    ensures r.Success? ==>
      r.value.0 < |predictedClasses| && r.value.1 == predictedClasses[r.value.0] &&
      (forall k :: 0 <= k < |predictedClasses| ==> predictedClasses[k] <= r.value.1) &&
      (forall k :: 0 <= k < r.value.0 ==> predictedClasses[k] < r.value.1)
  {
    if |predictedClasses| == 0 then Failure(InvalidOperation)
    else
      var i := ArgMaxFirst(predictedClasses);
      Success((i, predictedClasses[i]))
  }

  /** `Select((v, i) => (i, v)).OrderByDescending(Value).First()` picks
      exactly that pair, because the sort is stable. */
  lemma GetTopResultIsFirstOfSort(predictedClasses: seq<real>)
    requires |predictedClasses| > 0
    ensures GetTopResult(predictedClasses) == Success(SortByDescending(Indexed(predictedClasses), ValueOf)[0])
  {
    var ps := Indexed(predictedClasses);
    FirstOfSortIsFirstMaximum(ps, ValueOf);
    assert Keys(ps, ValueOf) == predictedClasses;
  }

  // ---------------------------------------------------------------------
  // Tensor layout

  /** The four box fields, or a box mapped onto its grid cell. */
  datatype Dimensions = Dimensions(x: real, y: real, width: real, height: real)

  /** For each of the five boxes of a cell, the channel block starts at
      `box * (classCount + 5)`: the box fields, the confidence and the class
      scores all stay inside that block, and the anchor pair exists. */
  lemma ChannelLayout(classCount: nat, box: nat)
    requires box < BoxesPerCell
    ensures var channel := box * (classCount + BoxInfoFeatureCount);
      channel + BoxInfoFeatureCount + classCount == (box + 1) * (classCount + BoxInfoFeatureCount) &&
      (box + 1) * (classCount + BoxInfoFeatureCount) <= BoxesPerCell * (classCount + BoxInfoFeatureCount)
    ensures box * 2 + 1 < |Anchors|
  {
  }

  /** The declared channel count matches the layout only for 20 classes,
      not the 9 the parser is configured with. */
  lemma ChannelCountFitsTwentyClasses(classCount: nat)
    ensures BoxesPerCell * (classCount + BoxInfoFeatureCount) == ChannelCount <==> classCount == 20
  {
  }

  function ExtractBoundingBoxDimensions(output: Tensor, x: int, y: int, channel: int): (d: Dimensions)
    ensures d == Dimensions(output(x, y, channel), output(x, y, channel + 1), output(x, y, channel + 2), output(x, y, channel + 3))
  {
    Dimensions(output(x, y, channel), output(x, y, channel + 1), output(x, y, channel + 2), output(x, y, channel + 3))
  }

  function GetConfidence(output: Tensor, exp: real -> real, x: int, y: int, channel: int): (c: real)
    requires PositiveExp(exp)
    ensures 0.0 < c < 1.0
  {
    Sigmoid(output(x, y, channel + 4), exp)
  }

  /** The box centre lies inside grid cell (x, y) (y counts columns of
      pixels, x rows) and the size is a positive multiple of the anchor. */
  function MapBoundingBoxToCell(x: nat, y: nat, box: nat, d: Dimensions, exp: real -> real): (c: Dimensions)
    requires box < BoxesPerCell && PositiveExp(exp)
    ensures y as real * CellWidth < c.x < (y + 1) as real * CellWidth
    ensures x as real * CellHeight < c.y < (x + 1) as real * CellHeight
    ensures c.width > 0.0 && c.height > 0.0
  {
    var sx := Sigmoid(d.x, exp);
    var sy := Sigmoid(d.y, exp);
    Dimensions(
      (y as real + sx) * CellWidth,
      (x as real + sy) * CellHeight,
      exp(d.width) * CellWidth * Anchors[box * 2],
      exp(d.height) * CellHeight * Anchors[box * 2 + 1])
  }

  function ExtractClasses(output: Tensor, exp: real -> real, x: int, y: int, channel: int, classCount: nat): (r: seq<real>)
    requires classCount > 0 && PositiveExp(exp)
    ensures |r| == classCount && Sum(r) == 1.0
    ensures forall i :: 0 <= i < |r| ==> r[i] > 0.0
  {
    Softmax(seq(classCount, c requires 0 <= c < classCount => output(x, y, c + channel + BoxInfoFeatureCount)), exp)
  }

  // ---------------------------------------------------------------------
  // Decoding: the specification of ParseOutputs

  /** Everything one decoding pass depends on. */
  datatype ParseInput = ParseInput(output: Tensor, exp: real -> real, labels: seq<string>, classCount: nat, threshold: real)

  ghost predicate ValidInput(inp: ParseInput) {
    PositiveExp(inp.exp) && inp.classCount > 0 && |inp.labels| >= inp.classCount
  }

  /** What every emitted candidate satisfies. */
  predicate Acceptable(inp: ParseInput, q: Prediction) {
    q.probability >= inp.threshold &&
    q.tagName.Some? && inp.classCount <= |inp.labels| && q.tagName.value in inp.labels[..inp.classCount] &&
    q.boundingBox.width > 0.0 && q.boundingBox.height > 0.0
  }

  /** The candidate of one (row, column, box), or none when the confidence
      or the confidence-weighted top class score is below the threshold. */
  function CellCandidate(inp: ParseInput, row: nat, col: nat, box: nat): (r: Option<Prediction>)
    requires ValidInput(inp) && box < BoxesPerCell
    ensures r.Some? ==> Acceptable(inp, r.value)
    ensures r.Some? ==>
      GetConfidence(inp.output, inp.exp, col, row, box * (inp.classCount + BoxInfoFeatureCount)) >= inp.threshold
    ensures r.Some? ==>
      row as real * CellWidth < r.value.boundingBox.left + r.value.boundingBox.width / 2.0 < (row + 1) as real * CellWidth
  {
    var channel := box * (inp.classCount + BoxInfoFeatureCount);
    var bbd := ExtractBoundingBoxDimensions(inp.output, col, row, channel);
    var confidence := GetConfidence(inp.output, inp.exp, col, row, channel);
    var mapped := MapBoundingBoxToCell(col, row, box, bbd, inp.exp);
    if confidence < inp.threshold then None
    else
      var predictedClasses := ExtractClasses(inp.output, inp.exp, col, row, channel, inp.classCount);
      var top := GetTopResult(predictedClasses).value;
      var topScore := top.1 * confidence;
      if topScore < inp.threshold then None
      else
        Some(Prediction(topScore, Some(inp.labels[top.0]),
          BoundingBox(mapped.x - mapped.width / 2.0, mapped.y - mapped.height / 2.0, mapped.width, mapped.height)))
  }

  function Emit(o: Option<Prediction>): seq<Prediction> {
    if o.Some? then [o.value] else []
  }

  /** A decoder of single cells: (row, column, box) to an optional
      candidate, defined for every box index below five. */
  type CellDecoder = (nat, nat, nat) --> Option<Prediction>

  ghost predicate Decodes(cell: CellDecoder) {
    forall row: nat, col: nat, box: nat :: box < BoxesPerCell ==> cell.requires(row, col, box)
  }

  /** `CellCandidate` for a fixed input. */
  function DecoderOf(inp: ParseInput): (cell: CellDecoder)
    requires ValidInput(inp)
    ensures Decodes(cell)
    ensures forall row: nat, col: nat, box: nat :: box < BoxesPerCell ==> cell(row, col, box) == CellCandidate(inp, row, col, box)
  {
    (row: nat, col: nat, box: nat) requires box < BoxesPerCell => CellCandidate(inp, row, col, box)
  }

  /** Candidates of boxes 0..box-1 of one cell, in box order. */
  function BoxCandidates(cell: CellDecoder, row: nat, col: nat, box: nat): (r: seq<Prediction>)
    requires Decodes(cell) && box <= BoxesPerCell
  {
    if box == 0 then []
    else BoxCandidates(cell, row, col, box - 1) + Emit(cell(row, col, box - 1))
  }

  /** Candidates of columns 0..col-1 of one row, in column order. */
  function ColumnCandidates(cell: CellDecoder, row: nat, col: nat): (r: seq<Prediction>)
    requires Decodes(cell)
  {
    if col == 0 then []
    else ColumnCandidates(cell, row, col - 1) + BoxCandidates(cell, row, col - 1, BoxesPerCell)
  }

  /** Candidates of rows 0..row-1, in row-major loop order. */
  function Candidates(cell: CellDecoder, row: nat): (r: seq<Prediction>)
    requires Decodes(cell)
  {
    if row == 0 then []
    else Candidates(cell, row - 1) + ColumnCandidates(cell, row - 1, RowCount)
  }

  /** Every candidate a decoder emits satisfies `Acceptable`. */
  ghost predicate EmitsAcceptable(cell: CellDecoder, inp: ParseInput)
    requires Decodes(cell)
  {
    forall row: nat, col: nat, box: nat :: box < BoxesPerCell && cell(row, col, box).Some? ==> Acceptable(inp, cell(row, col, box).value)
  }

  lemma {:induction false} BoxCandidatesAcceptable(cell: CellDecoder, inp: ParseInput, row: nat, col: nat, box: nat)
    requires Decodes(cell) && EmitsAcceptable(cell, inp) && box <= BoxesPerCell
    ensures |BoxCandidates(cell, row, col, box)| <= box
    ensures forall q :: q in BoxCandidates(cell, row, col, box) ==> Acceptable(inp, q)
  {
    if box > 0 {
      BoxCandidatesAcceptable(cell, inp, row, col, box - 1);
    }
  }

  lemma {:induction false} ColumnCandidatesAcceptable(cell: CellDecoder, inp: ParseInput, row: nat, col: nat)
    requires Decodes(cell) && EmitsAcceptable(cell, inp)
    ensures |ColumnCandidates(cell, row, col)| <= col * BoxesPerCell
    ensures forall q :: q in ColumnCandidates(cell, row, col) ==> Acceptable(inp, q)
  {
    if col > 0 {
      ColumnCandidatesAcceptable(cell, inp, row, col - 1);
      BoxCandidatesAcceptable(cell, inp, row, col - 1, BoxesPerCell);
    }
  }

  lemma {:induction false} CandidatesAcceptableFor(cell: CellDecoder, inp: ParseInput, row: nat)
    requires Decodes(cell) && EmitsAcceptable(cell, inp)
    ensures |Candidates(cell, row)| <= row * RowCount * BoxesPerCell
    ensures forall q :: q in Candidates(cell, row) ==> Acceptable(inp, q)
  {
    if row > 0 {
      CandidatesAcceptableFor(cell, inp, row - 1);
      ColumnCandidatesAcceptable(cell, inp, row - 1, RowCount);
    }
  }

  /** Every candidate of a full decoding pass clears the threshold, carries
      one of the model's labels and a box of positive size; there is at
      most one per (row, column, box). */
  lemma CandidatesAcceptable(inp: ParseInput, rows: nat)
    requires ValidInput(inp)
    ensures |Candidates(DecoderOf(inp), rows)| <= rows * RowCount * BoxesPerCell
    ensures forall q :: q in Candidates(DecoderOf(inp), rows) ==> Acceptable(inp, q)
  {
    var cell := DecoderOf(inp);
    DecoderEmitsAcceptable(inp, cell);
    CandidatesAcceptableFor(cell, inp, rows);
  }

  lemma DecoderEmitsAcceptable(inp: ParseInput, cell: CellDecoder)
    requires ValidInput(inp) && cell == DecoderOf(inp)
    ensures Decodes(cell) && EmitsAcceptable(cell, inp)
  {
    forall row: nat, col: nat, box: nat | box < BoxesPerCell && cell(row, col, box).Some?
      ensures Acceptable(inp, cell(row, col, box).value)
    {
      var c := CellCandidate(inp, row, col, box);
      assert cell(row, col, box) == c;
    }
  }

  // ---------------------------------------------------------------------
  // Intersection over union

  datatype UnityRect = UnityRect(x: real, y: real, width: real, height: real) {
    function XMin(): real { x }
    function XMax(): real { x + width }
    function YMin(): real { y }
    function YMax(): real { y + height }
  }

  function Max(a: real, b: real): real { if a >= b then a else b }
  function Min(a: real, b: real): real { if a <= b then a else b }

  function Intersection(a: UnityRect, b: UnityRect): real {
    var minX := Max(a.XMin(), b.XMin());
    var minY := Max(a.YMin(), b.YMin());
    var maxX := Min(a.XMax(), b.XMax());
    var maxY := Min(a.YMax(), b.YMax());
    Max(maxY - minY, 0.0) * Max(maxX - minX, 0.0)
  }

  /** The overlap of two boxes of positive area is no larger than either. */
  lemma IntersectionWithinAreas(a: UnityRect, b: UnityRect)
    requires a.width * a.height > 0.0 && b.width * b.height > 0.0
    ensures 0.0 <= Intersection(a, b)
    ensures Intersection(a, b) <= a.width * a.height && Intersection(a, b) <= b.width * b.height
  {
    var ix := Max(Min(a.XMax(), b.XMax()) - Max(a.XMin(), b.XMin()), 0.0);
    var iy := Max(Min(a.YMax(), b.YMax()) - Max(a.YMin(), b.YMin()), 0.0);
    assert Intersection(a, b) == iy * ix;
    assert 0.0 <= ix && 0.0 <= iy;
    if a.width < 0.0 || b.width < 0.0 {
      assert ix == 0.0;
    } else {
      assert a.height > 0.0 && b.height > 0.0;
      assert ix <= a.width && ix <= b.width;
      assert iy <= a.height && iy <= b.height;
      ProductMonotone(iy, ix, a.height, a.width);
      ProductMonotone(iy, ix, b.height, b.width);
    }
  }

  lemma ProductMonotone(x: real, y: real, u: real, v: real)
    requires 0.0 <= x <= u && 0.0 <= y <= v
    ensures x * y <= v * u
  {
    assert x * y <= u * y;
    assert u * y <= u * v;
  }

  lemma RatioInUnit(i: real, areaA: real, areaB: real)
    requires 0.0 <= i <= areaA && i <= areaB && 0.0 < areaA
    ensures 0.0 <= i / (areaA + areaB - i) <= 1.0
  {
    var d := areaA + areaB - i;
    assert d >= areaA > 0.0 && i <= d;
    assert (i / d) * d == i;
    if i / d > 1.0 {
      assert (i / d) * d > d;
    }
  }

  /** `IntersectionOverUnion`: zero when either box has no positive area,
      otherwise the overlap divided by the union. */
  function IntersectionOverUnion(a: UnityRect, b: UnityRect): (r: real)
    ensures a.width * a.height <= 0.0 || b.width * b.height <= 0.0 ==> r == 0.0
    ensures 0.0 <= r <= 1.0
  {
    var areaA := a.width * a.height;
    if areaA <= 0.0 then 0.0
    else
      var areaB := b.width * b.height;
      if areaB <= 0.0 then 0.0
      else
        var intersectionArea := Intersection(a, b);
        IntersectionWithinAreas(a, b);
        RatioInUnit(intersectionArea, areaA, areaB);
        intersectionArea / (areaA + areaB - intersectionArea)
  }

  lemma IntersectionOverUnionSymmetric(a: UnityRect, b: UnityRect)
    ensures IntersectionOverUnion(a, b) == IntersectionOverUnion(b, a)
  {
    assert Intersection(a, b) == Intersection(b, a);
  }

  /** A box compared with itself overlaps fully. */
  lemma IntersectionOverUnionSelf(a: UnityRect)
    requires a.width > 0.0 && a.height > 0.0
    ensures IntersectionOverUnion(a, a) == 1.0
  {
    assert Intersection(a, a) == a.height * a.width;
  }

  function RectOf(p: Prediction): UnityRect {
    UnityRect(p.boundingBox.left, p.boundingBox.top, p.boundingBox.width, p.boundingBox.height)
  }

  predicate Overlaps(a: Prediction, b: Prediction, threshold: real) {
    IntersectionOverUnion(RectOf(a), RectOf(b)) > threshold
  }

  // ---------------------------------------------------------------------
  // Greedy non-max suppression: the specification of FilterBoundingBoxes

  /** `act` after the box at `i` switched off every later active box
      below `hi` that it overlaps. */
  function Deactivate(s: seq<Prediction>, act: seq<bool>, i: nat, hi: nat, threshold: real): (r: seq<bool>)
    requires |act| == |s| && i < |s|
    ensures |r| == |act|
  {
    seq(|act|, k requires 0 <= k < |act| => act[k] && !(i < k < hi && Overlaps(s[i], s[k], threshold)))
  }

  /** The greedy pass over `s` from index `i`, with `act` the boxes not yet
      suppressed and `kept` the result so far. */
  function Greedy(s: seq<Prediction>, act: seq<bool>, i: nat, limit: int, threshold: real, kept: seq<Prediction>): (r: seq<Prediction>)
    requires |act| == |s| && i <= |s|
    ensures |kept| <= |r| <= |kept| + |s| - i && r[..|kept|] == kept
    ensures |kept| < limit || |kept| == 0 ==> |r| <= if limit > 1 then limit else 1
    decreases |s| - i
  {
    if i == |s| then kept
    else if !act[i] then Greedy(s, act, i + 1, limit, threshold, kept)
    else if |kept| + 1 >= limit then kept + [s[i]]
    else Greedy(s, Deactivate(s, act, i, |s|, threshold), i + 1, limit, threshold, kept + [s[i]])
  }

  function AllActive(n: nat): (act: seq<bool>)
    ensures |act| == n && forall k :: 0 <= k < n ==> act[k]
  {
    seq(n, k => true)
  }

  /** The suppression result for `boxes`: they are ranked by descending
      probability (a stable sort), then filtered greedily. */
  function Nms(boxes: seq<Prediction>, limit: int, threshold: real): seq<Prediction> {
    var sorted := SortByDescending(boxes, ProbabilityOf);
    Greedy(sorted, AllActive(|sorted|), 0, limit, threshold, [])
  }

  predicate IsSubsequence<T(==)>(r: seq<T>, s: seq<T>)
    decreases |s|
  {
    |r| <= |s| &&
    (|r| == 0 || (r[0] == s[0] && IsSubsequence(r[1..], s[1..])) || IsSubsequence(r, s[1..]))
  }

  lemma {:induction false} SubsequenceMembers<T>(r: seq<T>, s: seq<T>)
    requires IsSubsequence(r, s)
    ensures forall x :: x in r ==> x in s
    decreases |s|
  {
    if |r| > 0 {
      if r[0] == s[0] && IsSubsequence(r[1..], s[1..]) {
        SubsequenceMembers(r[1..], s[1..]);
        assert forall x :: x in r ==> x == r[0] || x in r[1..];
      } else {
        SubsequenceMembers(r, s[1..]);
      }
    }
  }

  /** A subsequence of a list ranked by descending key is ranked too. */
  lemma {:induction false} SubsequenceKeepsOrder<T>(r: seq<T>, s: seq<T>, key: T -> real)
    requires IsSubsequence(r, s) && SortedDescending(s, key)
    ensures SortedDescending(r, key)
    decreases |s|
  {
    if |r| > 0 {
      assert SortedDescending(s[1..], key);
      if r[0] == s[0] && IsSubsequence(r[1..], s[1..]) {
        SubsequenceKeepsOrder(r[1..], s[1..], key);
        SubsequenceMembers(r[1..], s[1..]);
        forall i, j | 0 <= i < j < |r|
          ensures key(r[i]) >= key(r[j])
        {
          if i == 0 {
            assert r[j] == r[1..][j - 1] && r[j] in s[1..];
          } else {
            assert r[i] == r[1..][i - 1] && r[j] == r[1..][j - 1];
          }
        }
      } else {
        SubsequenceKeepsOrder(r, s[1..], key);
      }
    }
  }

  /** What the pass adds to `kept` is a subsequence of the boxes it
      visits. */
  lemma {:induction false} GreedySubsequence(s: seq<Prediction>, act: seq<bool>, i: nat, limit: int, threshold: real, kept: seq<Prediction>)
    requires |act| == |s| && i <= |s|
    ensures IsSubsequence(Greedy(s, act, i, limit, threshold, kept)[|kept|..], s[i..])
    decreases |s| - i
  {
    var r := Greedy(s, act, i, limit, threshold, kept);
    if i == |s| {
      assert r[|kept|..] == [];
    } else if !act[i] {
      GreedySubsequence(s, act, i + 1, limit, threshold, kept);
      assert s[i..][1..] == s[i + 1..];
    } else if |kept| + 1 >= limit {
      assert r[|kept|..] == [s[i]];
      assert s[i..][0] == s[i];
      assert IsSubsequence([s[i]][1..], s[i..][1..]);
    } else {
      var kept' := kept + [s[i]];
      GreedySubsequence(s, Deactivate(s, act, i, |s|, threshold), i + 1, limit, threshold, kept');
      assert r[..|kept'|] == kept';
      assert r[|kept|..][0] == s[i..][0];
      assert r[|kept|..][1..] == r[|kept'|..];
      assert s[i..][1..] == s[i + 1..];
    }
  }

  /** No box in `kept` overlaps a still-active box from `i` on. */
  predicate Separated(s: seq<Prediction>, act: seq<bool>, i: nat, kept: seq<Prediction>, threshold: real)
    requires |act| == |s|
  {
    forall a, j :: 0 <= a < |kept| && i <= j < |s| && act[j] ==> !Overlaps(kept[a], s[j], threshold)
  }

  predicate PairwiseSeparated(kept: seq<Prediction>, threshold: real) {
    forall a, b :: 0 <= a < b < |kept| ==> !Overlaps(kept[a], kept[b], threshold)
  }

  lemma {:induction false} GreedySeparates(s: seq<Prediction>, act: seq<bool>, i: nat, limit: int, threshold: real, kept: seq<Prediction>)
    requires |act| == |s| && i <= |s|
    requires Separated(s, act, i, kept, threshold) && PairwiseSeparated(kept, threshold)
    ensures PairwiseSeparated(Greedy(s, act, i, limit, threshold, kept), threshold)
    decreases |s| - i
  {
    if i == |s| {
    } else if !act[i] {
      GreedySeparates(s, act, i + 1, limit, threshold, kept);
    } else {
      var kept' := kept + [s[i]];
      assert PairwiseSeparated(kept', threshold) by {
        forall a, b | 0 <= a < b < |kept'|
          ensures !Overlaps(kept'[a], kept'[b], threshold)
        {
          if b == |kept| {
            assert kept'[b] == s[i];
          }
        }
      }
      if |kept| + 1 < limit {
        var act' := Deactivate(s, act, i, |s|, threshold);
        assert Separated(s, act', i + 1, kept', threshold) by {
          forall a, j | 0 <= a < |kept'| && i + 1 <= j < |s| && act'[j]
            ensures !Overlaps(kept'[a], s[j], threshold)
          {
            if a == |kept| {
              assert kept'[a] == s[i];
            }
          }
        }
        GreedySeparates(s, act', i + 1, limit, threshold, kept');
      }
    }
  }

  /** Every box before `i` or already suppressed is kept or overlaps a kept
      box. */
  predicate Covered(s: seq<Prediction>, act: seq<bool>, i: nat, kept: seq<Prediction>, threshold: real)
    requires |act| == |s|
  {
    forall j :: 0 <= j < |s| && (j < i || !act[j]) ==>
      s[j] in kept || exists a :: 0 <= a < |kept| && Overlaps(kept[a], s[j], threshold)
  }

  lemma {:induction false} GreedyCovers(s: seq<Prediction>, act: seq<bool>, i: nat, limit: int, threshold: real, kept: seq<Prediction>)
    requires |act| == |s| && i <= |s|
    requires Covered(s, act, i, kept, threshold)
    ensures var r := Greedy(s, act, i, limit, threshold, kept);
      |r| < limit ==> Covered(s, act, |s|, r, threshold)
    decreases |s| - i
  {
    if i == |s| {
    } else if !act[i] {
      GreedyCovers(s, act, i + 1, limit, threshold, kept);
    } else if |kept| + 1 < limit {
      var kept' := kept + [s[i]];
      var act' := Deactivate(s, act, i, |s|, threshold);
      assert Covered(s, act', i + 1, kept', threshold) by {
        forall j | 0 <= j < |s| && (j < i + 1 || !act'[j])
          ensures s[j] in kept' || exists a :: 0 <= a < |kept'| && Overlaps(kept'[a], s[j], threshold)
        {
          if j == i {
            assert kept'[|kept|] == s[j];
          } else if j < i || !act[j] {
            if s[j] !in kept {
              var a :| 0 <= a < |kept| && Overlaps(kept[a], s[j], threshold);
              assert kept'[a] == kept[a];
            }
          } else {
            assert Overlaps(kept'[|kept|], s[j], threshold);
          }
        }
      }
      GreedyCovers(s, act', i + 1, limit, threshold, kept');
    }
  }

  /** The promises of non-max suppression: at most `max(limit, 1)` boxes
      and no more than were given; a subsequence of the ranked input, hence
      in non-increasing probability; no two kept boxes overlap above the
      threshold; and unless the limit stopped the pass, every given box is
      kept or overlaps a kept box above the threshold. */
  lemma NmsProperties(boxes: seq<Prediction>, limit: int, threshold: real)
    ensures var r := Nms(boxes, limit, threshold);
      |r| <= |boxes| && |r| <= (if limit > 1 then limit else 1) &&
      IsSubsequence(r, SortByDescending(boxes, ProbabilityOf)) &&
      SortedDescending(r, ProbabilityOf) &&
      PairwiseSeparated(r, threshold) &&
      (|r| < limit ==> forall j :: 0 <= j < |boxes| ==>
        boxes[j] in r || exists a :: 0 <= a < |r| && Overlaps(r[a], boxes[j], threshold))
  {
    var sorted := SortByDescending(boxes, ProbabilityOf);
    var all := AllActive(|sorted|);
    var r := Nms(boxes, limit, threshold);
    GreedySubsequence(sorted, all, 0, limit, threshold, []);
    assert r[0..] == r && sorted[0..] == sorted;
    SubsequenceKeepsOrder(r, sorted, ProbabilityOf);
    GreedySeparates(sorted, all, 0, limit, threshold, []);
    GreedyCovers(sorted, all, 0, limit, threshold, []);
    if |r| < limit {
      forall j | 0 <= j < |boxes|
        ensures boxes[j] in r || exists a :: 0 <= a < |r| && Overlaps(r[a], boxes[j], threshold)
      {
        assert boxes[j] in multiset(sorted);
        var k :| 0 <= k < |sorted| && sorted[k] == boxes[j];
      }
    }
  }

  function CountTrue(act: seq<bool>): (n: nat)
    ensures n <= |act|
  {
    if |act| == 0 then 0 else (if act[0] then 1 else 0) + CountTrue(act[1..])
  }

  lemma {:induction false} CountTrueClear(act: seq<bool>, j: nat)
    requires j < |act| && act[j]
    ensures CountTrue(act[j := false]) == CountTrue(act) - 1
    decreases |act|
  {
    if j > 0 {
      assert act[j := false][1..] == act[1..][j - 1 := false];
      CountTrueClear(act[1..], j - 1);
    } else {
      assert act[j := false][1..] == act[1..];
    }
  }

  lemma {:induction false} CountTruePositive(act: seq<bool>, i: nat)
    requires i < |act| && act[i]
    ensures CountTrue(act) >= 1
    decreases |act|
  {
    if i > 0 {
      CountTruePositive(act[1..], i - 1);
    }
  }

  /** The declarations `OutputParser` keeps between calls: the number of
      classes of the model and their labels. */
  class OutputParser {
    var classCount: int
    var labels: seq<string>

    /** `new OutputParser()` followed by `SetLabels(labels)`. */
    constructor(labels: seq<string>)
      ensures classCount == 9 && this.labels == labels
    {
      classCount := 9;
      this.labels := labels;
    }

    method SetClassCount(count: int)
      modifies this
      ensures classCount == count && labels == old(labels)
    {
      classCount := count;
    }

    method SetLabels(classLabels: seq<string>)
      modifies this
      ensures labels == classLabels && classCount == old(classCount)
    {
      labels := classLabels;
    }

    /** `ParseOutputs`: visits rows, then columns, then the five boxes of
        each cell and emits the candidates that pass the threshold. */
    method ParseOutputs(output: Tensor, exp: real -> real, threshold: real) returns (boxes: seq<Prediction>)
      requires PositiveExp(exp) && classCount > 0 && |labels| >= classCount
      ensures boxes == Candidates(DecoderOf(ParseInput(output, exp, labels, classCount, threshold)), ColCount)
    {
      var cell := DecoderOf(ParseInput(output, exp, labels, classCount, threshold));
      boxes := [];
      for row := 0 to ColCount
        invariant boxes == Candidates(cell, row)
      {
        var found := ParseRow(cell, row);
        boxes := boxes + found;
      }
    }

    /** The column and box loops of `ParseOutputs` for one row. */
    static method ParseRow(cell: CellDecoder, row: nat) returns (boxes: seq<Prediction>)
      requires Decodes(cell)
      ensures boxes == ColumnCandidates(cell, row, RowCount)
    {
      boxes := [];
      for colum := 0 to RowCount
        invariant boxes == ColumnCandidates(cell, row, colum)
      {
        ghost var before := boxes;
        for box := 0 to BoxesPerCell
          invariant boxes == before + BoxCandidates(cell, row, colum, box)
        {
          var candidate := cell(row, colum, box);
          if candidate.Some? {
            boxes := boxes + [candidate.value];
          }
        }
      }
    }

    /** `FilterBoundingBoxes`: greedy non-max suppression over the boxes
        ranked by probability, keeping at most `limit` (at least one). */
    method FilterBoundingBoxes(boxes: seq<Prediction>, limit: int, threshold: real) returns (results: seq<Prediction>)
      ensures results == Nms(boxes, limit, threshold)
    {
      var activeCount := |boxes|;
      var isActiveBoxes := new bool[|boxes|];
      for i := 0 to isActiveBoxes.Length
        invariant forall k :: 0 <= k < i ==> isActiveBoxes[k]
      {
        isActiveBoxes[i] := true;
      }
      var sortedBoxes := SortByDescending(boxes, ProbabilityOf);
      assert isActiveBoxes[..] == AllActive(|sortedBoxes|);
      CountTrueAll(|boxes|);
      results := [];
      var i := 0;
      while i < |boxes|
        invariant 0 <= i <= |boxes| == isActiveBoxes.Length
        invariant Greedy(sortedBoxes, isActiveBoxes[..], i, limit, threshold, results) == Nms(boxes, limit, threshold)
        invariant activeCount == CountTrue(isActiveBoxes[..])
      {
        if isActiveBoxes[i] {
          var boxA := sortedBoxes[i];
          results := results + [boxA];
          if |results| >= limit {
            break;
          }
          activeCount := SuppressOverlapping(sortedBoxes, isActiveBoxes, i, threshold, activeCount);
          if activeCount <= 0 {
            break;
          }
        }
        i := i + 1;
      }
    }

    /** The inner loop of `FilterBoundingBoxes`: the active box at `i`
        switches off every later active box it overlaps by more than
        `threshold`, and the active count follows. */
    static method SuppressOverlapping(sortedBoxes: seq<Prediction>, isActiveBoxes: array<bool>, i: nat,
                                      threshold: real, activeCount: int) returns (count: int)
      requires isActiveBoxes.Length == |sortedBoxes| && i < |sortedBoxes| && isActiveBoxes[i]
      requires activeCount == CountTrue(isActiveBoxes[..])
      modifies isActiveBoxes
      ensures isActiveBoxes[..] == Deactivate(sortedBoxes, old(isActiveBoxes[..]), i, |sortedBoxes|, threshold)
      ensures count == CountTrue(isActiveBoxes[..]) && count >= 1
    {
      ghost var act0 := isActiveBoxes[..];
      var boxA := sortedBoxes[i];
      count := activeCount;
      var j := i + 1;
      while j < |sortedBoxes|
        invariant i + 1 <= j <= |sortedBoxes|
        invariant isActiveBoxes[..] == Deactivate(sortedBoxes, act0, i, j, threshold)
        invariant count == CountTrue(isActiveBoxes[..])
      {
        if isActiveBoxes[j] {
          var boxB := sortedBoxes[j];
          if IntersectionOverUnion(RectOf(boxA), RectOf(boxB)) > threshold {
            CountTrueClear(isActiveBoxes[..], j);
            isActiveBoxes[j] := false;
            count := count - 1;
            CountTruePositive(isActiveBoxes[..], i);
          }
        }
        assert Deactivate(sortedBoxes, act0, i, j + 1, threshold) == isActiveBoxes[..];
        j := j + 1;
      }
      CountTruePositive(isActiveBoxes[..], i);
    }
  }

  lemma {:induction false} CountTrueAll(n: nat)
    ensures CountTrue(AllActive(n)) == n
  {
    if n > 0 {
      assert AllActive(n)[1..] == AllActive(n - 1);
      CountTrueAll(n - 1);
    }
  }

  /** The local detector's configured suppression threshold (0.2) collapses
      two boxes that overlap by a third, which the default IoU threshold
      (0.45) keeps apart. */
  lemma ConfidenceAsIouThresholdDropsBox()
    ensures var a := Prediction(0.9, Some("a"), BoundingBox(0.0, 0.0, 10.0, 10.0));
      var b := Prediction(0.8, Some("b"), BoundingBox(5.0, 0.0, 10.0, 10.0));
      Nms([a, b], 10, MinimumConfidence) == [a] &&
      Nms([a, b], 10, DefaultIouThreshold) == [a, b]
  {
    var a := Prediction(0.9, Some("a"), BoundingBox(0.0, 0.0, 10.0, 10.0));
    var b := Prediction(0.8, Some("b"), BoundingBox(5.0, 0.0, 10.0, 10.0));
    ExamplePair(a, b);
    var all := AllActive(2);
    assert all == [true, true];
    assert Deactivate([a, b], all, 0, 2, MinimumConfidence) == [true, false];
    assert Deactivate([a, b], all, 0, 2, DefaultIouThreshold) == [true, true];
    assert Deactivate([a, b], [true, true], 1, 2, DefaultIouThreshold) == [true, true];
  }

  /** The two boxes of the example are already ranked, and overlap by a third. */
  lemma ExamplePair(a: Prediction, b: Prediction)
    requires a == Prediction(0.9, Some("a"), BoundingBox(0.0, 0.0, 10.0, 10.0))
    requires b == Prediction(0.8, Some("b"), BoundingBox(5.0, 0.0, 10.0, 10.0))
    ensures SortByDescending([a, b], ProbabilityOf) == [a, b]
    ensures IntersectionOverUnion(RectOf(a), RectOf(b)) == 1.0 / 3.0
  {
    var ra, rb := RectOf(a), RectOf(b);
    assert Intersection(ra, rb) == 50.0 by {
      assert Max(ra.XMin(), rb.XMin()) == 5.0 && Min(ra.XMax(), rb.XMax()) == 10.0;
      assert Max(ra.YMin(), rb.YMin()) == 0.0 && Min(ra.YMax(), rb.YMax()) == 10.0;
    }
    assert SortByDescending([b], ProbabilityOf) == [b];
    assert [a, b][1..] == [b];
  }

  // ---------------------------------------------------------------------
  // CustomVisionLocal

  /** C#'s truncating cast of a float to `int`. */
  function TruncateToInt(x: real): (r: int)
    ensures x >= 0.0 ==> r as real <= x < r as real + 1.0
    ensures x < 0.0 ==> r as real - 1.0 < x <= r as real
  {
    if x >= 0.0 then x.Floor else -((-x).Floor)
  }

  /** The height, in network pixels, of the frame scaled to width 416,
      truncated. */
  function ResizedHeight(width: int, height: int): (r: int)
    requires width != 0
    ensures width > 0 && height >= 0 ==>
      0 <= r && r as real * width as real <= NetworkSize * height as real < (r as real + 1.0) * width as real
  {
    var x := NetworkSize / width as real * height as real;
    ScaledBounds(x, width, height);
    TruncateToInt(x)
  }

  lemma ScaledBounds(x: real, width: int, height: int)
    requires width != 0 && x == NetworkSize / width as real * height as real
    ensures width > 0 && height >= 0 ==>
      0 <= TruncateToInt(x) &&
      TruncateToInt(x) as real * width as real <= NetworkSize * height as real < (TruncateToInt(x) as real + 1.0) * width as real
  {
    if width > 0 && height >= 0 {
      var w := width as real;
      var r := TruncateToInt(x) as real;
      assert x * w == NetworkSize * height as real;
      assert 0.0 <= x;
      assert r * w <= x * w;
      assert x * w < (r + 1.0) * w;
    }
  }

  /** Network pixels back to frame pixels: x and both sizes scale with the
      frame width; y is measured from the top edge minus the box height,
      scaled with the resized height. */
  function ConvertLocal(b: BoundingBox, width: int, newHeight: int): (r: Rect2d)
    ensures r.x * NetworkSize == b.left * width as real
    ensures r.width * NetworkSize == b.width * width as real
    ensures r.height * NetworkSize == b.height * width as real
    ensures r.y * NetworkSize == (b.top - b.height) * newHeight as real
  {
    Rect2d(b.left / NetworkSize * width as real, (b.top / NetworkSize - b.height / NetworkSize) * newHeight as real,
      b.width / NetworkSize * width as real, b.height / NetworkSize * width as real)
  }

  /** Both sizes use the same scale, so the box keeps its aspect ratio. */
  lemma ConvertLocalKeepsAspect(b: BoundingBox, width: int, newHeight: int)
    ensures var r := ConvertLocal(b, width, newHeight);
      r.width * b.height == r.height * b.width
  {
    var r := ConvertLocal(b, width, newHeight);
    var f := width as real / NetworkSize;
    assert r.width == b.width * f && r.height == b.height * f;
  }

  function CreateLocalDetectedObject(frame: CameraFrame, p: Prediction, newHeight: int): (d: DetectedObject)
    ensures d.frame == frame && d.probability == p.probability
    ensures d.tag == TagOrEmpty(p.tagName)
    ensures d.rect == ConvertLocal(p.boundingBox, frame.width, newHeight)
  {
    DetectedObject(ConvertLocal(p.boundingBox, frame.width, newHeight), TagOrEmpty(p.tagName), p.probability, frame)
  }

  /** The kept predictions as detections on `frame`, in order. */
  function LocalDetections(frame: CameraFrame, kept: seq<Prediction>, newHeight: int): (r: seq<DetectedObject>)
    ensures |r| == |kept|
    ensures forall k :: 0 <= k < |r| ==> r[k] == CreateLocalDetectedObject(frame, kept[k], newHeight)
  {
    seq(|kept|, k requires 0 <= k < |kept| => CreateLocalDetectedObject(frame, kept[k], newHeight))
  }

  /** Suppression keeps only boxes it was given: whatever all candidates
      satisfy, the kept ones do. */
  lemma NmsKeepsAcceptable(candidates: seq<Prediction>, inp: ParseInput, limit: int, threshold: real)
    requires forall q :: q in candidates ==> Acceptable(inp, q)
    ensures forall q :: q in Nms(candidates, limit, threshold) ==> Acceptable(inp, q)
  {
    var sorted := SortByDescending(candidates, ProbabilityOf);
    var kept := Nms(candidates, limit, threshold);
    NmsProperties(candidates, limit, threshold);
    SubsequenceMembers(kept, sorted);
    forall q | q in kept
      ensures Acceptable(inp, q)
    {
      assert q in multiset(sorted);
    }
  }

  lemma DetectionsOfAcceptable(inp: ParseInput, frame: CameraFrame, kept: seq<Prediction>, newHeight: int)
    requires forall q :: q in kept ==> Acceptable(inp, q)
    ensures var r := LocalDetections(frame, kept, newHeight);
      forall k :: 0 <= k < |r| ==>
        r[k].frame == frame && r[k].probability >= inp.threshold && r[k].tag in inp.labels
  {
    forall k | 0 <= k < |kept|
      ensures kept[k].probability >= inp.threshold && TagOrEmpty(kept[k].tagName) in inp.labels
    {
      assert Acceptable(inp, kept[k]);
      var t := kept[k].tagName.value;
      assert t in inp.labels[..inp.classCount];
      var j :| 0 <= j < inp.classCount && inp.labels[..inp.classCount][j] == t;
      assert inp.labels[j] == t;
    }
  }

  /** What the corrected detector returns: at most `max(maxDetections, 1)`
      detections, all on the request frame, each above the probability
      threshold and labelled with one of the model's labels, from boxes no
      two of which overlap above the IoU threshold.  Stated for a pass over
      any number of grid rows; the detector makes one over `ColCount`. */
  lemma CorrectedDetectionsSound(inp: ParseInput, rows: nat, frame: CameraFrame, maxDetections: int, iouThreshold: real, newHeight: int)
    requires ValidInput(inp)
    ensures var kept := Nms(Candidates(DecoderOf(inp), rows), maxDetections, iouThreshold);
      var r := LocalDetections(frame, kept, newHeight);
      |r| <= (if maxDetections > 1 then maxDetections else 1) &&
      PairwiseSeparated(kept, iouThreshold) &&
      forall k :: 0 <= k < |r| ==>
        r[k].frame == frame && r[k].probability >= inp.threshold && r[k].tag in inp.labels
  {
    var candidates := Candidates(DecoderOf(inp), rows);
    CandidatesAcceptable(inp, rows);
    NmsProperties(candidates, maxDetections, iouThreshold);
    NmsKeepsAcceptable(candidates, inp, maxDetections, iouThreshold);
    DetectionsOfAcceptable(inp, frame, Nms(candidates, maxDetections, iouThreshold), newHeight);
  }

  /** `CustomVisionLocal`: the decoder plus its configuration. */
  class CustomVisionLocal {
    const labels: seq<string>
    const maxDetections: int
    const probabilityThreshold: real
    const iouThreshold: real
    const parser: OutputParser

    constructor(labels: seq<string>, maxDetections: int, probabilityThreshold: real, iouThreshold: real)
      ensures this.labels == labels && this.maxDetections == maxDetections
      ensures this.probabilityThreshold == probabilityThreshold && this.iouThreshold == iouThreshold
      ensures fresh(parser) && parser.classCount == 9 && parser.labels == labels
    {
      this.labels := labels;
      this.maxDetections := maxDetections;
      this.probabilityThreshold := probabilityThreshold;
      this.iouThreshold := iouThreshold;
      parser := new OutputParser(labels);
    }

    /** `DetectAsync` as written: it decodes with the confidence constant,
        suppresses with at most ten boxes and the confidence constant as IoU
        threshold, builds the detections, and returns an empty list. */
    method DetectAsync(frame: CameraFrame, output: Tensor, exp: real -> real) returns (detected: seq<DetectedObject>)
      requires frame.width != 0 && PositiveExp(exp)
      requires parser.classCount > 0 && |parser.labels| >= parser.classCount
      ensures detected == []
    {
      var newHeight := ResizedHeight(frame.width, frame.height);
      var results := parser.ParseOutputs(output, exp, MinimumConfidence);
      var boxes := parser.FilterBoundingBoxes(results, 10, MinimumConfidence);
      var detectedObjects := LocalDetections(frame, boxes, newHeight);
      return [];
    }

    /** `DetectAsync` as evidently intended: the configured thresholds and
        detection limit are used and the detections are returned. */
    method Detect(frame: CameraFrame, output: Tensor, exp: real -> real) returns (detected: seq<DetectedObject>)
      requires frame.width != 0 && PositiveExp(exp)
      requires parser.classCount > 0 && |parser.labels| >= parser.classCount
      ensures detected == LocalDetections(frame,
        Nms(Candidates(DecoderOf(ParseInput(output, exp, parser.labels, parser.classCount, probabilityThreshold)), ColCount),
          maxDetections, iouThreshold),
        ResizedHeight(frame.width, frame.height))
    {
      var newHeight := ResizedHeight(frame.width, frame.height);
      var results := parser.ParseOutputs(output, exp, probabilityThreshold);
      var boxes := parser.FilterBoundingBoxes(results, maxDetections, iouThreshold);
      detected := LocalDetections(frame, boxes, newHeight);
    }
  }
}

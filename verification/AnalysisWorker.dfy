/**
 The computation inside one analysis run (analysis_worker.py): detections of known types over all
 images, the condition index, the dominant type, and the summary.
 */
module AnalysisWorker {
  import opened Wrappers
  import opened Rounding
  import opened Ordering
  import opened PciEngine
  import opened PciOrder
  import opened PciBounds
  import D = Detector

  /** One row of damage_detections; the type is named by its code. */
  datatype DetectionRow = DetectionRow(image: ImageId, found: D.Found)

  /** What the run writes: detections, the score, and the summary. */
  datatype Analysis = Analysis(
    rows: seq<DetectionRow>, pci: PciResult, dominant: Option<Code>, total: nat, confidence: Option<real>)

  datatype WorkerError = NoImagesToAnalyse | EngineRefused(error: PciError)

  /** The loaded model: the boxes it predicts on an image. */
  type Model = ImageId -> seq<D.Box>

  // ---- Collecting the detections

  /** The detections of one image whose code is a known damage type, in order. */
  function Known(image: ImageId, boxes: seq<D.Box>, types: map<Code, real>): seq<DetectionRow> {
    if boxes == [] then []
    else
      Known(image, boxes[..|boxes| - 1], types) +
      var f := D.ToFound(boxes[|boxes| - 1]);
      if f.code in types then [DetectionRow(image, f)] else []
  }

  function Collected(images: seq<ImageId>, model: Model, types: map<Code, real>): seq<DetectionRow> {
    if images == [] then []
    else
      Collected(images[..|images| - 1], model, types) +
      Known(images[|images| - 1], model(images[|images| - 1]), types)
  }

  /** The inner loop: the detections of one image, skipping unknown codes. */
  method CollectImage(before: seq<DetectionRow>, image: ImageId, boxes: seq<D.Box>, types: map<Code, real>)
    returns (rows: seq<DetectionRow>)
    ensures rows == before + Known(image, boxes, types)
  {
    hide D.ToFound;
    var found := D.Detect(boxes);
    rows := before;
    for j := 0 to |found|
      invariant rows == before + Known(image, boxes[..j], types)
    {
      assert boxes[..j + 1][..j] == boxes[..j];
      if found[j].code in types {
        rows := rows + [DetectionRow(image, found[j])];
      }
    }
    assert boxes[..|boxes|] == boxes;
  }

  method Collect(images: seq<ImageId>, model: Model, types: map<Code, real>) returns (rows: seq<DetectionRow>)
    ensures rows == Collected(images, model, types)
  {
    rows := [];
    for i := 0 to |images|
      invariant rows == Collected(images[..i], model, types)
    {
      rows := CollectImage(rows, images[i], model(images[i]), types);
      assert images[..i + 1][..i] == images[..i];
    }
    assert images[..|images|] == images;
  }

  predicate KnownTypes(rows: seq<DetectionRow>, types: map<Code, real>) {
    forall k :: 0 <= k < |rows| ==> rows[k].found.code in types
  }

  /** Rows of known types, on images of the run. */
  ghost predicate WellFormed(rows: seq<DetectionRow>, images: seq<ImageId>, types: map<Code, real>) {
    KnownTypes(rows, types) && forall k :: 0 <= k < |rows| ==> rows[k].image in images
  }

  lemma {:induction false} KnownRows(image: ImageId, boxes: seq<D.Box>, types: map<Code, real>, r: DetectionRow)
    requires r in Known(image, boxes, types)
    ensures r.image == image && r.found.code in types
    ensures exists j :: 0 <= j < |boxes| && r.found == D.ToFound(boxes[j])
  {
    var n := |boxes| - 1;
    if r in Known(image, boxes[..n], types) {
      KnownRows(image, boxes[..n], types, r);
      var j :| 0 <= j < n && r.found == D.ToFound(boxes[..n][j]);
      assert r.found == D.ToFound(boxes[j]);
    } else {
      assert r.found == D.ToFound(boxes[n]);
    }
  }

  ghost predicate FromModel(r: DetectionRow, images: seq<ImageId>, model: Model, types: map<Code, real>) {
    && r.image in images && r.found.code in types
    && exists j :: 0 <= j < |model(r.image)| && r.found == D.ToFound(model(r.image)[j])
  }

  lemma {:induction false} CollectedRows(images: seq<ImageId>, model: Model, types: map<Code, real>, r: DetectionRow)
    requires r in Collected(images, model, types)
    ensures FromModel(r, images, model, types)
  {
    var n := |images| - 1;
    if r in Collected(images[..n], model, types) {
      CollectedRows(images[..n], model, types, r);
    } else {
      KnownRows(images[n], model(images[n]), types, r);
    }
  }

  lemma CollectedWellFormed(images: seq<ImageId>, model: Model, types: map<Code, real>)
    ensures WellFormed(Collected(images, model, types), images, types)
  {
    var rows := Collected(images, model, types);
    forall k | 0 <= k < |rows| ensures rows[k].found.code in types && rows[k].image in images {
      CollectedRows(images, model, types, rows[k]);
    }
  }

  // ---- The engine's input

  function Input(r: DetectionRow, types: map<Code, real>): Detection
    requires r.found.code in types
  {
    Detection(r.found.code, types[r.found.code], r.found.severity, D.RelativeArea(r.found.width, r.found.height), r.image)
  }

  function Inputs(rows: seq<DetectionRow>, types: map<Code, real>): (ds: seq<Detection>)
    requires KnownTypes(rows, types)
    ensures |ds| == |rows|
  {
    seq(|rows|, k requires 0 <= k < |rows| => Input(rows[k], types))
  }

  /** What the engine sees in a run. */
  function RunInputs(images: seq<ImageId>, model: Model, types: map<Code, real>): seq<Detection> {
    CollectedWellFormed(images, model, types);
    Inputs(Collected(images, model, types), types)
  }

  ghost predicate ConfidentModel(images: seq<ImageId>, model: Model) {
    forall i :: i in images ==> forall j :: 0 <= j < |model(i)| ==> D.Confident(model(i)[j])
  }

  /** The weights are those of the schema: between 0 and 1. */
  ghost predicate ValidTypes(types: map<Code, real>) {
    forall c :: c in types ==> 0.0 <= types[c] <= 1.0
  }

  /** With confidences in [0, 1], every row meets its CHECKs and the engine never refuses a run. */
  lemma EngineAccepts(images: seq<ImageId>, model: Model, types: map<Code, real>)
    requires ConfidentModel(images, model)
    ensures AllInRange(RunInputs(images, model, types))
    ensures forall r :: r in Collected(images, model, types) ==> D.MeetsChecks(r.found)
  {
    hide D.MeetsChecks, D.Confident, D.ToFound;
    var rows := Collected(images, model, types);
    forall r | r in rows ensures D.MeetsChecks(r.found) && 0.0 < D.RelativeArea(r.found.width, r.found.height) <= 1.0 && 0.0 <= r.found.severity <= 1.0 {
      RowInRange(images, model, types, r);
    }
    var ds := RunInputs(images, model, types);
    forall k | 0 <= k < |ds| ensures InRange(ds[k]) {
      assert rows[k] in rows;
    }
  }

  lemma RowInRange(images: seq<ImageId>, model: Model, types: map<Code, real>, r: DetectionRow)
    requires ConfidentModel(images, model) && r in Collected(images, model, types)
    ensures D.MeetsChecks(r.found) && 0.0 < D.RelativeArea(r.found.width, r.found.height) <= 1.0 && 0.0 <= r.found.severity <= 1.0
  {
    hide D.ToFound;
    CollectedRows(images, model, types, r);
    var j :| 0 <= j < |model(r.image)| && r.found == D.ToFound(model(r.image)[j]);
    D.FoundInRange(model(r.image)[j]);
  }

  lemma InputsShape(images: seq<ImageId>, model: Model, types: map<Code, real>)
    ensures WeightByCode(RunInputs(images, model, types))
    ensures ValidTypes(types) ==> WeightsNonNegative(RunInputs(images, model, types))
    ensures Distinct(images) ==> OnImages(RunInputs(images, model, types), Elements(images), |images|)
  {
    CollectedWellFormed(images, model, types);
    if Distinct(images) { DistinctSize(images); }
  }

  lemma {:induction false} DistinctSize<T>(s: seq<T>)
    requires Distinct(s)
    ensures |Elements(s)| == |s|
  {
    if s != [] {
      DistinctSize(s[1..]);
      assert Elements(s) == {s[0]} + Elements(s[1..]);
      assert s[0] !in Elements(s[1..]);
    }
  }

  // ---- Dominant type and confidence

  /** The code `max` returns: a largest reported deduction, the first in the breakdown. */
  ghost predicate IsDominant(b: seq<TypeDeduction>, k: nat) {
    && k < |b|
    && (forall j :: 0 <= j < |b| ==> b[j].deduction <= b[k].deduction)
    && (forall j :: 0 <= j < k ==> b[j].deduction < b[k].deduction)
  }

  method Dominant(b: seq<TypeDeduction>) returns (c: Option<Code>)
    ensures c.None? <==> b == []
    ensures c.Some? ==> exists k: nat :: IsDominant(b, k) && c.value == b[k].code
  {
    if b == [] {
      return None;
    }
    var best: nat := 0;
    for i := 1 to |b|
      invariant best < i
      invariant forall j :: 0 <= j < i ==> b[j].deduction <= b[best].deduction
      invariant forall j :: 0 <= j < best ==> b[j].deduction < b[best].deduction
    {
      if b[i].deduction > b[best].deduction {
        best := i;
      }
    }
    assert IsDominant(b, best);
    return Some(b[best].code);
  }

  /** The dominant type of a breakdown. */
  ghost function DominantOf(b: seq<TypeDeduction>): Option<Code> {
    if k: nat :| IsDominant(b, k) then Some(b[k].code) else None
  }

  lemma DominantUnique(b: seq<TypeDeduction>, j: nat, k: nat)
    requires IsDominant(b, j) && IsDominant(b, k)
    ensures j == k
  {
    assert b[j].deduction <= b[k].deduction <= b[j].deduction;
  }

  function ConfidenceSum(rows: seq<DetectionRow>): real {
    if rows == [] then 0.0 else ConfidenceSum(rows[..|rows| - 1]) + rows[|rows| - 1].found.confidence
  }

  function MeanConfidence(rows: seq<DetectionRow>): Option<real> {
    if rows == [] then None else Some(Round4(ConfidenceSum(rows) / |rows| as real))
  }

  lemma {:induction false} ConfidenceSumBounds(rows: seq<DetectionRow>)
    requires forall k :: 0 <= k < |rows| ==> 0.0 <= rows[k].found.confidence <= 1.0
    ensures 0.0 <= ConfidenceSum(rows) <= |rows| as real
  {
    if rows != [] {
      ConfidenceSumBounds(rows[..|rows| - 1]);
    }
  }

  /** The summary's confidence meets the CHECK of its column. */
  lemma ConfidenceInRange(rows: seq<DetectionRow>)
    requires rows != [] && forall k :: 0 <= k < |rows| ==> 0.0 <= rows[k].found.confidence <= 1.0
    ensures MeanConfidence(rows).Some? && 0.0 <= MeanConfidence(rows).value <= 1.0
  {
    hide Round4, ConfidenceSum;
    ConfidenceSumBounds(rows);
    RatioBetween(0.0, 1.0, ConfidenceSum(rows), |rows| as real);
    Round4Within(0, ConfidenceSum(rows) / |rows| as real, 10000);
  }

  method AverageConfidence(rows: seq<DetectionRow>) returns (c: Option<real>)
    ensures c == MeanConfidence(rows)
  {
    if rows == [] {
      return None;
    }
    var sum := 0.0;
    for i := 0 to |rows|
      invariant sum == ConfidenceSum(rows[..i])
    {
      assert rows[..i + 1][..i] == rows[..i];
      sum := sum + rows[i].found.confidence;
    }
    assert rows[..|rows|] == rows;
    return Some(Round4(sum / |rows| as real));
  }

  // ---- The run

  /** What a run over these images computes. */
  ghost function AnalysisOf(images: seq<ImageId>, model: Model, types: map<Code, real>): Analysis
    requires images != []
  {
    var rows := Collected(images, model, types);
    var pci := PciOf(RunInputs(images, model, types), |images|);
    Analysis(rows, pci, DominantOf(pci.deductions), |rows|, MeanConfidence(rows))
  }

  method Analyse(images: seq<ImageId>, model: Model, types: map<Code, real>)
    returns (r: Result<Analysis, WorkerError>)
    ensures images == [] ==> r == Err(NoImagesToAnalyse)
    ensures r.Ok? <==> images != [] && AllInRange(RunInputs(images, model, types))
    ensures r.Ok? ==> r.value == AnalysisOf(images, model, types)
  {
    hide PciOf, AllInRange, IsDominant;
    if images == [] {
      return Err(NoImagesToAnalyse);
    }
    var rows := Collect(images, model, types);
    CollectedWellFormed(images, model, types);
    var pci := ComputePci(Inputs(rows, types), |images|);
    if pci.Err? {
      return Err(EngineRefused(pci.error));
    }
    var dominant := Dominant(pci.value.deductions);
    DominantAgrees(pci.value.deductions, dominant);
    var confidence := AverageConfidence(rows);
    return Ok(Analysis(rows, pci.value, dominant, |rows|, confidence));
  }

  lemma DominantAgrees(b: seq<TypeDeduction>, c: Option<Code>)
    requires c.None? <==> b == []
    requires c.Some? ==> exists k: nat :: IsDominant(b, k) && c.value == b[k].code
    ensures c == DominantOf(b)
  {
  }

  // ---- The order in which the database returns the images

  lemma {:induction false} CollectedConcat(a: seq<ImageId>, b: seq<ImageId>, model: Model, types: map<Code, real>)
    ensures Collected(a + b, model, types) == Collected(a, model, types) + Collected(b, model, types)
  {
    hide Known;
    if b == [] {
      assert a + b == a;
    } else {
      CollectedConcat(a, b[..|b| - 1], model, types);
      assert (a + b)[..|a + b| - 1] == a + b[..|b| - 1];
    }
  }

  lemma CollectedWithout(b: seq<ImageId>, k: nat, model: Model, types: map<Code, real>)
    requires k < |b|
    ensures
      multiset(Collected(b, model, types)) ==
      multiset(Collected(b[..k] + b[k + 1..], model, types)) + multiset(Known(b[k], model(b[k]), types))
  {
    hide Known;
    var front, back := b[..k], b[k + 1..];
    CollectedConcat(front, back, model, types);
    CollectedConcat(b[..k + 1], back, model, types);
    assert b == b[..k + 1] + back;
    CollectedLast(b, k, model, types);
  }

  lemma CollectedLast(b: seq<ImageId>, k: nat, model: Model, types: map<Code, real>)
    requires k < |b|
    ensures Collected(b[..k + 1], model, types) == Collected(b[..k], model, types) + Known(b[k], model(b[k]), types)
  {
    assert b[..k + 1][..k] == b[..k];
  }

  lemma {:induction false} CollectedPermutation(a: seq<ImageId>, b: seq<ImageId>, model: Model, types: map<Code, real>)
    requires multiset(a) == multiset(b)
    ensures multiset(Collected(a, model, types)) == multiset(Collected(b, model, types))
    decreases |a|
  {
    assert |a| == |multiset(a)| == |multiset(b)| == |b|;
    if a != [] {
      var k := Occurrence(a, b);
      CollectedPermutation(a[..|a| - 1], b[..k] + b[k + 1..], model, types);
      CollectedWithout(b, k, model, types);
    }
  }

  lemma InputsWithout(rows: seq<DetectionRow>, k: nat, types: map<Code, real>)
    requires k < |rows| && KnownTypes(rows, types)
    ensures KnownTypes(rows[..k] + rows[k + 1..], types)
    ensures
      multiset(Inputs(rows, types)) ==
      multiset(Inputs(rows[..k] + rows[k + 1..], types)) + multiset{Input(rows[k], types)}
  {
    var ds := Inputs(rows, types);
    assert Inputs(rows[..k] + rows[k + 1..], types) == ds[..k] + ds[k + 1..];
    assert ds == ds[..k] + [ds[k]] + ds[k + 1..];
  }

  lemma {:induction false} InputsPermutation(a: seq<DetectionRow>, b: seq<DetectionRow>, types: map<Code, real>)
    requires multiset(a) == multiset(b) && KnownTypes(a, types) && KnownTypes(b, types)
    ensures multiset(Inputs(a, types)) == multiset(Inputs(b, types))
    decreases |a|
  {
    assert |a| == |multiset(a)| == |multiset(b)| == |b|;
    if a != [] {
      var k := Occurrence(a, b);
      InputsWithout(a, |a| - 1, types);
      InputsWithout(b, k, types);
      assert a[..|a| - 1] + a[|a|..] == a[..|a| - 1];
      InputsPermutation(a[..|a| - 1], b[..k] + b[k + 1..], types);
    }
  }

  lemma {:induction false} ConfidenceWithout(rows: seq<DetectionRow>, k: nat)
    requires k < |rows|
    ensures ConfidenceSum(rows) == ConfidenceSum(rows[..k] + rows[k + 1..]) + rows[k].found.confidence
  {
    var last := |rows| - 1;
    var rest := rows[..k] + rows[k + 1..];
    if k < last {
      ConfidenceWithout(rows[..last], k);
      assert rest[..|rest| - 1] == rows[..last][..k] + rows[..last][k + 1..];
    } else {
      assert rest == rows[..last];
    }
  }

  lemma {:induction false} ConfidencePermutation(a: seq<DetectionRow>, b: seq<DetectionRow>)
    requires multiset(a) == multiset(b)
    ensures ConfidenceSum(a) == ConfidenceSum(b)
    decreases |a|
  {
    assert |a| == |multiset(a)| == |multiset(b)| == |b|;
    if a != [] {
      var k := Occurrence(a, b);
      ConfidencePermutation(a[..|a| - 1], b[..k] + b[k + 1..]);
      ConfidenceWithout(b, k);
    }
  }

  /** The query has no ORDER BY: whatever order the images come in, a run stores the same rows, score and summary. */
  lemma ImageOrderIrrelevant(a: seq<ImageId>, b: seq<ImageId>, model: Model, types: map<Code, real>)
    requires a != [] && multiset(a) == multiset(b)
    ensures b != []
    ensures
      var x, y := AnalysisOf(a, model, types), AnalysisOf(b, model, types);
      multiset(x.rows) == multiset(y.rows) && x.(rows := []) == y.(rows := [])
  {
    hide PciOf, IsDominant, ConfidenceSum, Collected, Inputs, WeightByCode;
    var rows, rows' := Collected(a, model, types), Collected(b, model, types);
    assert |a| == |multiset(a)| == |multiset(b)| == |b|;
    CollectedPermutation(a, b, model, types);
    assert |rows| == |multiset(rows)| == |multiset(rows')| == |rows'|;
    CollectedWellFormed(a, model, types);
    CollectedWellFormed(b, model, types);
    InputsPermutation(rows, rows', types);
    ConfidencePermutation(rows, rows');
    InputsShape(a, model, types);
    ScorePermutation(RunInputs(a, model, types), RunInputs(b, model, types), |a|);
  }

  // ---- What a run keeps and reports

  /** How many of the boxes have a known code. */
  function CountKnown(boxes: seq<D.Box>, types: map<Code, real>): nat {
    if boxes == [] then 0
    else CountKnown(boxes[1..], types) + if boxes[0].code in types then 1 else 0
  }

  lemma {:induction false} CountFromFront(boxes: seq<D.Box>, types: map<Code, real>)
    requires boxes != []
    ensures CountKnown(boxes, types) ==
      CountKnown(boxes[..|boxes| - 1], types) + if boxes[|boxes| - 1].code in types then 1 else 0
  {
    if |boxes| > 1 {
      CountFromFront(boxes[1..], types);
      assert boxes[1..][..|boxes| - 2] == boxes[..|boxes| - 1][1..];
    } else {
      assert boxes[1..] == [] && boxes[..0] == [];
    }
  }

  lemma SameCode(b: D.Box)
    ensures D.ToFound(b).code == b.code
  {
  }

  /** Every box of a known code is kept, at the place its number among them gives, and nothing else. */
  lemma {:induction false} KnownExactly(image: ImageId, boxes: seq<D.Box>, types: map<Code, real>, j: nat)
    requires j <= |boxes|
    ensures |Known(image, boxes, types)| == CountKnown(boxes, types)
    ensures CountKnown(boxes[..j], types) <= CountKnown(boxes, types)
    ensures j < |boxes| && boxes[j].code in types ==>
      CountKnown(boxes[..j], types) < CountKnown(boxes, types)
      && Known(image, boxes, types)[CountKnown(boxes[..j], types)] == DetectionRow(image, D.ToFound(boxes[j]))
  {
    hide D.ToFound, CountKnown;
    if boxes == [] {
      assert boxes[..j] == [];
      NoneKnown(types);
    } else {
      var n := |boxes| - 1;
      CountFromFront(boxes, types);
      SameCode(boxes[n]);
      if j <= n {
        KnownExactly(image, boxes[..n], types, j);
        assert boxes[..n][..j] == boxes[..j];
      } else {
        KnownExactly(image, boxes[..n], types, 0);
        assert boxes[..j] == boxes;
      }
    }
  }

  lemma NoneKnown(types: map<Code, real>)
    ensures CountKnown([], types) == 0
  {
  }

  /** The detections of each image lie together in the result of a run, all of them, in the order of the images. */
  lemma {:induction false} CollectedExactly(images: seq<ImageId>, model: Model, types: map<Code, real>, i: nat)
    requires i < |images|
    ensures
      var rows, from := Collected(images, model, types), |Collected(images[..i], model, types)|;
      var own := Known(images[i], model(images[i]), types);
      from + |own| <= |rows| && rows[from..from + |own|] == own
  {
    hide Known;
    var n := |images| - 1;
    if i < n {
      CollectedExactly(images[..n], model, types, i);
      assert images[..n][..i] == images[..i];
    }
  }

  /** How many boxes of known codes the model predicts on the images. */
  function CountAll(images: seq<ImageId>, model: Model, types: map<Code, real>): nat {
    if images == [] then 0 else CountAll(images[..|images| - 1], model, types) + CountKnown(model(images[|images| - 1]), types)
  }

  lemma {:induction false} CollectedCount(images: seq<ImageId>, model: Model, types: map<Code, real>)
    ensures |Collected(images, model, types)| == CountAll(images, model, types)
  {
    hide Known, CountKnown;
    if images != [] {
      var n := |images| - 1;
      CollectedCount(images[..n], model, types);
      KnownExactly(images[n], model(images[n]), types, 0);
    }
  }

  // ---- The mean confidence

  lemma {:induction false} ConfidenceSumAdds(a: seq<DetectionRow>, b: seq<DetectionRow>)
    ensures ConfidenceSum(a + b) == ConfidenceSum(a) + ConfidenceSum(b)
  {
    if b == [] {
      assert a + b == a;
    } else {
      ConfidenceSumAdds(a, b[..|b| - 1]);
      assert (a + b)[..|a + b| - 1] == a + b[..|b| - 1];
    }
  }

  lemma ConfidenceSumOne(r: DetectionRow)
    ensures ConfidenceSum([r]) == r.found.confidence
  {
    assert [r][..0] == [];
  }

  lemma {:induction false} ConfidenceSumBetween(rows: seq<DetectionRow>, lo: real, hi: real)
    requires forall k :: 0 <= k < |rows| ==> lo <= rows[k].found.confidence <= hi
    ensures lo * |rows| as real <= ConfidenceSum(rows) <= hi * |rows| as real
  {
    if rows != [] {
      ConfidenceSumBetween(rows[..|rows| - 1], lo, hi);
      BetweenStep(lo, hi, (|rows| - 1) as real, 1.0);
    }
  }

  /**
   The mean is missing exactly without detections; otherwise it lies between the least and the greatest confidence,
   and times the detections it is their sum, within the rounding.
   */
  lemma MeanConfidenceMeans(rows: seq<DetectionRow>, lo: int, hi: int)
    requires forall k :: 0 <= k < |rows| ==> lo as real / 10000.0 <= rows[k].found.confidence <= hi as real / 10000.0
    ensures MeanConfidence(rows).None? <==> rows == []
    ensures rows != [] ==>
      var mean, n, sum := MeanConfidence(rows).value, |rows| as real, ConfidenceSum(rows);
      && lo as real / 10000.0 <= mean <= hi as real / 10000.0
      && sum / n - 0.00005 <= mean <= sum / n + 0.00005
  {
    hide Round4, ConfidenceSum;
    if rows != [] {
      var l, h := lo as real / 10000.0, hi as real / 10000.0;
      ConfidenceSumBetween(rows, l, h);
      RatioBetween(l, h, ConfidenceSum(rows), |rows| as real);
      Round4Near(ConfidenceSum(rows) / |rows| as real);
      Round4Within(lo, ConfidenceSum(rows) / |rows| as real, hi);
    }
  }

  /** What the summary of a run reports: the number of known boxes, their mean confidence, and the first type of a largest deduction. */
  lemma SummaryMeans(images: seq<ImageId>, model: Model, types: map<Code, real>)
    requires images != []
    ensures
      var a := AnalysisOf(images, model, types);
      && a.rows == Collected(images, model, types)
      && a.pci == PciOf(RunInputs(images, model, types), |images|)
      && a.total == |a.rows| == CountAll(images, model, types)
      && a.confidence == MeanConfidence(a.rows)
      && (a.dominant.None? <==> a.pci.deductions == [])
      && (a.dominant.Some? ==>
            exists k: nat :: k < |a.pci.deductions| && a.dominant.value == a.pci.deductions[k].code
              && (forall j :: 0 <= j < |a.pci.deductions| ==> a.pci.deductions[j].deduction <= a.pci.deductions[k].deduction)
              && (forall j :: 0 <= j < k ==> a.pci.deductions[j].deduction < a.pci.deductions[k].deduction))
  {
    hide PciOf, Collected, MeanConfidence, CountAll, RunInputs;
    CollectedCount(images, model, types);
    var a := AnalysisOf(images, model, types);
    DominantFound(a.pci.deductions);
  }

  lemma DominantFound(b: seq<TypeDeduction>)
    ensures DominantOf(b).None? <==> b == []
    ensures DominantOf(b).Some? ==> exists k: nat :: IsDominant(b, k) && DominantOf(b).value == b[k].code
  {
    if b != [] { var k := HasDominant(b); }
  }

  lemma {:induction false} HasDominant(b: seq<TypeDeduction>) returns (k: nat)
    requires b != []
    ensures IsDominant(b, k)
  {
    var n := |b| - 1;
    if n == 0 {
      k := 0;
    } else {
      k := HasDominant(b[..n]);
      assert forall j :: 0 <= j < n ==> b[..n][j] == b[j];
      if b[n].deduction > b[k].deduction { k := n; }
    }
  }

  /** What the engine sees of each stored detection. */
  lemma InputFields(images: seq<ImageId>, model: Model, types: map<Code, real>, k: nat)
    requires k < |Collected(images, model, types)|
    ensures |RunInputs(images, model, types)| == |Collected(images, model, types)|
    ensures
      var d, row := RunInputs(images, model, types)[k], Collected(images, model, types)[k];
      && d.code == row.found.code && d.code in types && d.weight == types[d.code]
      && d.severity == row.found.severity && d.area == row.found.width * row.found.height && d.image == row.image
  {
    CollectedWellFormed(images, model, types);
  }
}

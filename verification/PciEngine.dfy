/**
 The condition index of an inspection (pci_engine.py), over exact reals. The specification is the
 closed form

   100 - sum over types of  weight * mean severity * density * 100,   clamped to [0, 100],

 and `ComputePci` is the program: grouping, one running cap per image, one running total.
 */
module PciEngine {
  import opened Wrappers
  import opened Rounding
  import opened Ordering
  import opened Sums

  type Code = string
  type ImageId = string

  datatype Detection = Detection(code: Code, weight: real, severity: real, area: real, image: ImageId)

  datatype SeverityLevel = FAIBLE | MODERE | GRAVE | CRITIQUE

  datatype PriorityLevel = P4_EXCELLENT | P3_SURVEILLANCE | P2_PLANIFIE | P1_URGENT | P0_CRITIQUE

  datatype TypeDeduction =
    TypeDeduction(code: Code, weight: real, meanSeverity: real, density: real, deduction: real)

  datatype PciResult = PciResult(
    score: real, severity: SeverityLevel, priority: PriorityLevel, deductions: seq<TypeDeduction>)

  /** The two reasons the engine raises ValueError. */
  datatype PciError = NoImages | OutOfRange(code: Code)

  function ClassifySeverity(pci: real): SeverityLevel {
    if pci >= 70.0 then FAIBLE
    else if pci >= 55.0 then MODERE
    else if pci >= 40.0 then GRAVE
    else CRITIQUE
  }

  function ClassifyPriority(pci: real): PriorityLevel {
    if pci >= 85.0 then P4_EXCELLENT
    else if pci >= 70.0 then P3_SURVEILLANCE
    else if pci >= 55.0 then P2_PLANIFIE
    else if pci >= 40.0 then P1_URGENT
    else P0_CRITIQUE
  }

  predicate InRange(d: Detection) {
    0.0 <= d.severity <= 1.0 && 0.0 <= d.area <= 1.0
  }

  predicate AllInRange(ds: seq<Detection>) {
    forall i :: 0 <= i < |ds| ==> InRange(ds[i])
  }

  // ---- Totals over a list of detections

  datatype Quantity = Area | AreaOn(image: ImageId) | SeverityArea | Severity

  function Value(d: Detection, q: Quantity): real {
    match q
    case Area => d.area
    case AreaOn(image) => if d.image == image then d.area else 0.0
    case SeverityArea => d.severity * d.area
    case Severity => d.severity
  }

  function Tally(ds: seq<Detection>, q: Quantity): real {
    if ds == [] then 0.0 else Tally(ds[..|ds| - 1], q) + Value(ds[|ds| - 1], q)
  }

  // ---- The closed form

  ghost function Codes(ds: seq<Detection>): set<Code> {
    set d | d in ds :: d.code
  }

  /** The detections of one type, in input order. */
  function Group(ds: seq<Detection>, c: Code): (g: seq<Detection>)
    ensures g == [] <==> c !in Codes(ds)
  {
    if ds == [] then []
    else
      var last := ds[|ds| - 1];
      assert Codes(ds) == Codes(ds[..|ds| - 1]) + {last.code} by {
        assert ds == ds[..|ds| - 1] + [last];
      }
      Group(ds[..|ds| - 1], c) + if last.code == c then [last] else []
  }

  lemma {:induction false} GroupMembers(ds: seq<Detection>, c: Code)
    ensures forall d :: d in Group(ds, c) <==> d in ds && d.code == c
  {
    if ds != [] {
      GroupMembers(ds[..|ds| - 1], c);
      assert ds == ds[..|ds| - 1] + [ds[|ds| - 1]];
    }
  }

  ghost function Images(ds: seq<Detection>): set<ImageId> {
    set d | d in ds :: d.image
  }

  /** The damaged fraction of each image the group touches, capped at the whole image. */
  ghost function PerImage(g: seq<Detection>): map<ImageId, real> {
    map i | i in Images(g) :: Min(1.0, Tally(g, AreaOn(i)))
  }

  ghost function Damaged(g: seq<Detection>): real {
    Sum(PerImage(g))
  }

  ghost function Density(g: seq<Detection>, n: int): real
    requires n >= 1
  {
    Damaged(g) / n as real
  }

  function MeanSeverity(g: seq<Detection>): real
    requires g != []
  {
    if Tally(g, Area) > 0.0 then Tally(g, SeverityArea) / Tally(g, Area)
    else Tally(g, Severity) / |g| as real
  }

  /** The points one type takes off: `pci_weight * mean_severity * density * 100`. */
  function Points(weight: real, mean: real, density: real): real {
    weight * mean * density * 100.0
  }

  ghost function Deduction(g: seq<Detection>, n: int): real
    requires g != [] && n >= 1
  {
    Points(g[0].weight, MeanSeverity(g), Density(g, n))
  }

  ghost function Deductions(ds: seq<Detection>, n: int): map<Code, real>
    requires n >= 1
  {
    map c | c in Codes(ds) :: Deduction(Group(ds, c), n)
  }

  ghost function PointsLost(ds: seq<Detection>, n: int): real
    requires n >= 1
  {
    Sum(Deductions(ds, n))
  }

  ghost function RawScore(ds: seq<Detection>, n: int): real
    requires n >= 1
  {
    100.0 - PointsLost(ds, n)
  }

  ghost function Score(ds: seq<Detection>, n: int): real
    requires n >= 1
  {
    Max(0.0, Min(100.0, RawScore(ds, n)))
  }

  ghost function StoredScore(ds: seq<Detection>, n: int): real
    requires n >= 1
  {
    Round2(Score(ds, n))
  }

  ghost function Entry(c: Code, g: seq<Detection>, n: int): TypeDeduction
    requires g != [] && n >= 1
  {
    TypeDeduction(c, Round4(g[0].weight), Round4(MeanSeverity(g)), Round4(Density(g, n)), Round4(Deduction(g, n)))
  }

  /** One entry for each type present, in the order of the codes. */
  ghost function Breakdown(ds: seq<Detection>, n: int): (b: seq<TypeDeduction>)
    requires n >= 1
    ensures |b| == |Listing(Codes(ds))|
  {
    var codes := Listing(Codes(ds));
    assert forall k :: 0 <= k < |codes| ==> codes[k] in Elements(codes);
    seq(|codes|, k requires 0 <= k < |codes| => Entry(codes[k], Group(ds, codes[k]), n))
  }

  lemma BreakdownAt(ds: seq<Detection>, n: int, k: nat)
    requires n >= 1 && k < |Listing(Codes(ds))|
    ensures
      var c := Listing(Codes(ds))[k];
      c in Codes(ds) && Breakdown(ds, n)[k] == Entry(c, Group(ds, c), n)
  {
    hide Entry;
    assert Listing(Codes(ds))[k] in Elements(Listing(Codes(ds)));
  }

  ghost function PciOf(ds: seq<Detection>, n: int): PciResult
    requires n >= 1
  {
    PciResult(StoredScore(ds, n), ClassifySeverity(Score(ds, n)), ClassifyPriority(Score(ds, n)), Breakdown(ds, n))
  }

  // ---- The program

  /** `by_type` after a prefix of the input: one group for each type seen, plus the listing of the keys. */
  ghost predicate Grouped(byType: map<Code, seq<Detection>>, keys: seq<Code>, ds: seq<Detection>) {
    && byType.Keys == Codes(ds)
    && (forall c :: c in byType ==> byType[c] == Group(ds, c))
    && Distinct(keys)
    && Elements(keys) == Codes(ds)
  }

  lemma GroupStep(ds: seq<Detection>, i: nat, c: Code)
    requires i < |ds|
    ensures Group(ds[..i + 1], c) == Group(ds[..i], c) + if ds[i].code == c then [ds[i]] else []
  {
    assert ds[..i + 1][..i] == ds[..i];
  }

  lemma CodesStep(ds: seq<Detection>, i: nat)
    requires i < |ds|
    ensures Codes(ds[..i + 1]) == Codes(ds[..i]) + {ds[i].code}
  {
    assert forall x :: x in ds[..i + 1] <==> x in ds[..i] || x == ds[i];
  }

  lemma KeysStep(keys: seq<Code>, c: Code)
    requires Distinct(keys) && c !in Elements(keys)
    ensures Distinct(keys + [c]) && Elements(keys + [c]) == Elements(keys) + {c}
  {
    assert forall x :: x in keys + [c] <==> x in Elements(keys) || x == c;
    assert forall i :: 0 <= i < |keys| ==> keys[i] in Elements(keys);
  }

  lemma ByTypeStep(byType: map<Code, seq<Detection>>, ds: seq<Detection>, i: nat)
    requires i < |ds| && byType.Keys == Codes(ds[..i])
    requires forall c :: c in byType ==> byType[c] == Group(ds[..i], c)
    ensures
      var byType' := byType[ds[i].code := Group(ds[..i], ds[i].code) + [ds[i]]];
      byType'.Keys == Codes(ds[..i + 1]) && forall c :: c in byType' ==> byType'[c] == Group(ds[..i + 1], c)
  {
    CodesStep(ds, i);
    var byType' := byType[ds[i].code := Group(ds[..i], ds[i].code) + [ds[i]]];
    forall c | c in byType' ensures byType'[c] == Group(ds[..i + 1], c) {
      GroupStep(ds, i, c);
    }
  }

  /** `by_type.setdefault(code, []).append(det)`, with the list of keys in insertion order. */
  method AddToGroup(byType: map<Code, seq<Detection>>, keys: seq<Code>, ghost ds: seq<Detection>, ghost i: nat, d: Detection)
    returns (byType': map<Code, seq<Detection>>, keys': seq<Code>)
    requires i < |ds| && d == ds[i] && Grouped(byType, keys, ds[..i])
    ensures Grouped(byType', keys', ds[..i + 1])
  {
    ByTypeStep(byType, ds, i);
    CodesStep(ds, i);
    if d.code in byType {
      byType', keys' := byType[d.code := byType[d.code] + [d]], keys;
    } else {
      KeysStep(keys, d.code);
      byType', keys' := byType[d.code := [] + [d]], keys + [d.code];
    }
  }

  /** The running cap `min(1, acc + a)` is the cap of the running sum, because areas are not negative. */
  lemma CapStep(acc: real, a: real)
    requires a >= 0.0
    ensures Min(1.0, Min(1.0, acc) + a) == Min(1.0, acc + a)
  {
  }

  lemma {:induction false} TallyNonNegative(ds: seq<Detection>, q: Quantity)
    requires AllInRange(ds)
    ensures Tally(ds, q) >= 0.0
  {
    if ds != [] {
      var last := ds[|ds| - 1];
      assert InRange(last);
      assert last.severity * last.area >= 0.0;
      TallyNonNegative(ds[..|ds| - 1], q);
    }
  }

  lemma {:induction false} TallyAbsent(ds: seq<Detection>, i: ImageId)
    requires i !in Images(ds)
    ensures Tally(ds, AreaOn(i)) == 0.0
  {
    if ds != [] {
      assert ds[|ds| - 1] in ds;
      TallyAbsent(ds[..|ds| - 1], i);
    }
  }

  lemma TallyStep(g: seq<Detection>, i: nat, q: Quantity)
    requires i < |g|
    ensures Tally(g[..i + 1], q) == Tally(g[..i], q) + Value(g[i], q)
  {
    assert g[..i + 1][..i] == g[..i];
  }

  lemma ImagesStep(g: seq<Detection>, i: nat)
    requires i < |g|
    ensures Images(g[..i + 1]) == Images(g[..i]) + {g[i].image}
  {
    assert forall x :: x in g[..i + 1] <==> x in g[..i] || x == g[i];
  }

  lemma PerImageStep(g: seq<Detection>, i: nat)
    requires i < |g| && AllInRange(g)
    ensures
      var m, d := PerImage(g[..i]), g[i];
      PerImage(g[..i + 1]) == m[d.image := Min(1.0, (if d.image in m then m[d.image] else 0.0) + d.area)]
  {
    hide Tally, Images;
    var prefix, d := g[..i], g[i];
    ImagesStep(g, i);
    forall k ensures Tally(g[..i + 1], AreaOn(k)) == Tally(prefix, AreaOn(k)) + if k == d.image then d.area else 0.0 {
      TallyStep(g, i, AreaOn(k));
    }
    if d.image !in Images(prefix) { TallyAbsent(prefix, d.image); }
    assert InRange(d);
    CapStep(Tally(prefix, AreaOn(d.image)), d.area);
  }

  /** The dictionary `per_image` of one group, filled one detection at a time. */
  method AreaPerImage(g: seq<Detection>) returns (perImage: map<ImageId, real>)
    requires AllInRange(g)
    ensures perImage == PerImage(g)
  {
    perImage := map[];
    for i := 0 to |g|
      invariant perImage == PerImage(g[..i])
    {
      PerImageStep(g, i);
      var d := g[i];
      perImage := perImage[d.image := Min(1.0, (if d.image in perImage then perImage[d.image] else 0.0) + d.area)];
    }
    assert g[..|g|] == g;
  }

  /** The shortcut for a survey without detections agrees with the general formula. */
  lemma EmptyScore(n: int)
    requires n >= 1
    ensures PciOf([], n) == PciResult(100.0, FAIBLE, P4_EXCELLENT, [])
  {
    assert Codes([]) == {};
    assert Deductions([], n) == map[];
    Round2OnGrid(10000);
    if Listing({}) != [] { HasElements(Listing({})); }
  }

  /** The state of the main loop after the first k codes. */
  ghost function Restricted(m: map<Code, real>, codes: seq<Code>): map<Code, real> {
    map c | c in m && c in codes :: m[c]
  }

  lemma RestrictedStep(m: map<Code, real>, codes: seq<Code>, k: nat)
    requires k < |codes| && Increasing(codes) && codes[k] in m
    ensures Sum(Restricted(m, codes[..k + 1])) == Sum(Restricted(m, codes[..k])) + m[codes[k]]
  {
    var before, c := Restricted(m, codes[..k]), codes[k];
    assert c !in codes[..k];
    assert forall x :: x in codes[..k + 1] <==> x in codes[..k] || x == c;
    assert Restricted(m, codes[..k + 1]) == before[c := m[c]];
    SumAdd(before, c, m[c]);
  }

  method DeductionOf(g: seq<Detection>, c: Code, n: int) returns (deduction: real, entry: TypeDeduction)
    requires g != [] && n >= 1 && AllInRange(g)
    ensures deduction == Deduction(g, n) && entry == Entry(c, g, n)
  {
    hide Points, MeanSeverity, Round4, PerImage;
    var perImage := AreaPerImage(g);
    var damaged := SumValues(perImage);
    var density := damaged / n as real;
    var mean := MeanSeverity(g);
    var weight := g[0].weight;
    deduction := Points(weight, mean, density);
    entry := TypeDeduction(c, Round4(weight), Round4(mean), Round4(density), Round4(deduction));
  }

  /** The index of the first detection out of range, if there is one. */
  ghost predicate FirstOutOfRange(ds: seq<Detection>, i: nat) {
    i < |ds| && AllInRange(ds[..i]) && !InRange(ds[i])
  }

  method GroupByType(ds: seq<Detection>)
    returns (bad: Option<Code>, byType: map<Code, seq<Detection>>, keys: seq<Code>)
    ensures bad.None? <==> AllInRange(ds)
    ensures bad.None? ==> Grouped(byType, keys, ds)
    ensures bad.Some? ==> exists i: nat :: FirstOutOfRange(ds, i) && bad.value == ds[i].code
  {
    bad, byType, keys := None, map[], [];
    for i := 0 to |ds|
      invariant AllInRange(ds[..i])
      invariant Grouped(byType, keys, ds[..i])
    {
      var d := ds[i];
      if !InRange(d) {
        assert FirstOutOfRange(ds, i);
        bad := Some(d.code);
        return;
      }
      assert AllInRange(ds[..i + 1]);
      byType, keys := AddToGroup(byType, keys, ds, i, d);
    }
    assert ds[..|ds|] == ds;
  }

  /** What the k-th type of the listing costs. */
  ghost function DeductionAt(ds: seq<Detection>, n: int, k: nat): real
    requires n >= 1 && k < |Listing(Codes(ds))|
  {
    var c := Listing(Codes(ds))[k];
    assert c in Elements(Listing(Codes(ds)));
    Deduction(Group(ds, c), n)
  }

  /** The points lost to the first k types of the listing. */
  ghost function PartialLoss(ds: seq<Detection>, n: int, k: nat): real
    requires n >= 1 && k <= |Listing(Codes(ds))|
  {
    Sum(Restricted(Deductions(ds, n), Listing(Codes(ds))[..k]))
  }

  lemma PartialLossEnds(ds: seq<Detection>, n: int)
    requires n >= 1
    ensures PartialLoss(ds, n, 0) == 0.0 && PartialLoss(ds, n, |Listing(Codes(ds))|) == PointsLost(ds, n)
  {
    hide Deduction;
    var codes, all := Listing(Codes(ds)), Deductions(ds, n);
    assert Restricted(all, codes[..0]) == map[];
    assert codes[..|codes|] == codes;
    assert forall c :: c in Codes(ds) ==> c in Elements(codes);
    assert Restricted(all, codes) == all;
  }

  lemma PartialLossStep(ds: seq<Detection>, n: int, k: nat)
    requires n >= 1 && k < |Listing(Codes(ds))|
    ensures PartialLoss(ds, n, k + 1) == PartialLoss(ds, n, k) + DeductionAt(ds, n, k)
    ensures Breakdown(ds, n)[k].deduction == Round4(DeductionAt(ds, n, k))
  {
    hide Deduction, Round4, Breakdown;
    var codes := Listing(Codes(ds));
    assert codes[k] in Elements(codes);
    RestrictedStep(Deductions(ds, n), codes, k);
    BreakdownAt(ds, n, k);
  }

  /** The state of the main loop after k types. */
  ghost predicate Progress(ds: seq<Detection>, n: int, k: nat, total: real, deductions: seq<TypeDeduction>)
    requires n >= 1 && k <= |Listing(Codes(ds))|
  {
    total == PartialLoss(ds, n, k) && deductions == Breakdown(ds, n)[..k]
  }

  lemma ProgressStep(ds: seq<Detection>, n: int, k: nat, total: real, deductions: seq<TypeDeduction>)
    requires n >= 1 && k < |Listing(Codes(ds))| && Progress(ds, n, k, total, deductions)
    ensures
      var c := Listing(Codes(ds))[k];
      c in Codes(ds) &&
      Progress(ds, n, k + 1, total + Deduction(Group(ds, c), n), deductions + [Entry(c, Group(ds, c), n)])
  {
    hide Deduction, Entry, PartialLoss, Breakdown, Increasing, Elements, Codes, Group;
    PartialLossStep(ds, n, k);
    BreakdownAt(ds, n, k);
    var b := Breakdown(ds, n);
    assert b[..k + 1] == b[..k] + [b[k]];
  }

  lemma ProgressEnds(ds: seq<Detection>, n: int)
    requires n >= 1
    ensures Progress(ds, n, 0, 0.0, [])
    ensures forall total, deductions :: Progress(ds, n, |Listing(Codes(ds))|, total, deductions) ==>
      total == PointsLost(ds, n) && deductions == Breakdown(ds, n)
  {
    hide Deduction, Entry, PartialLoss, PointsLost;
    PartialLossEnds(ds, n);
    assert Breakdown(ds, n)[..|Listing(Codes(ds))|] == Breakdown(ds, n);
  }

  /** The loop over `sorted(by_type.items())`. */
  method Deduct(byType: map<Code, seq<Detection>>, codes: seq<Code>, ghost ds: seq<Detection>, n: int)
    returns (total: real, deductions: seq<TypeDeduction>)
    requires n >= 1 && AllInRange(ds)
    requires codes == Listing(Codes(ds)) && byType.Keys == Codes(ds)
    requires forall c :: c in byType ==> byType[c] == Group(ds, c)
    ensures total == PointsLost(ds, n) && deductions == Breakdown(ds, n)
  {
    hide Progress, Deduction, Entry, Breakdown, PointsLost, AllInRange, Increasing, Elements, Codes, Group;
    deductions, total := [], 0.0;
    ProgressEnds(ds, n);
    for k := 0 to |codes|
      invariant Progress(ds, n, k, total, deductions)
    {
      var c := codes[k];
      ProgressStep(ds, n, k, total, deductions);
      GroupInRange(ds, c);
      var deduction, entry := DeductionOf(byType[c], c, n);
      total := total + deduction;
      deductions := deductions + [entry];
    }
  }

  lemma GroupInRange(ds: seq<Detection>, c: Code)
    requires AllInRange(ds)
    ensures AllInRange(Group(ds, c))
  {
    var g := Group(ds, c);
    GroupMembers(ds, c);
    forall i | 0 <= i < |g| ensures InRange(g[i]) {
      assert g[i] in g;
    }
  }

  /**
   `compute_pci`: rejects an empty survey, then answers a survey without detections, then rejects
   the first detection out of range; otherwise the closed form.
   */
  method ComputePci(ds: seq<Detection>, n: int) returns (r: Result<PciResult, PciError>)
    ensures r.Ok? <==> n >= 1 && AllInRange(ds)
    ensures n < 1 ==> r == Err(NoImages)
    ensures n >= 1 && !AllInRange(ds) ==>
      exists i: nat :: FirstOutOfRange(ds, i) && r == Err(OutOfRange(ds[i].code))
    ensures r.Ok? ==> r.value == PciOf(ds, n)
  {
    if n < 1 {
      return Err(NoImages);
    }
    if ds == [] {
      EmptyScore(n);
      return Ok(PciResult(100.0, FAIBLE, P4_EXCELLENT, []));
    }
    var bad, byType, keys := GroupByType(ds);
    if bad.Some? {
      return Err(OutOfRange(bad.value));
    }
    SortDistinct(keys);
    var codes := Sort(keys, StringLe);
    IncreasingUnique(codes, Listing(Codes(ds)));
    var total, deductions := Deduct(byType, codes, ds, n);
    var score := Max(0.0, Min(100.0, 100.0 - total));
    return Ok(PciResult(Round2(score), ClassifySeverity(score), ClassifyPriority(score), deductions));
  }
}

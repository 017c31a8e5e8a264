/**
 What the answer of the engine says about its input, with the number of images written out: the score against
 one sum over the detections, the levels against the thresholds, the reported densities against the covered
 area, and how the answers for two numbers of images compare.
 */
module PciMeaning {
  import opened Rounding
  import opened Ordering
  import opened Sums
  import opened PciEngine
  import opened PciOrder
  import opened PciAreas
  import opened PciBounds

  // ---- The score, from one sum over the detections

  /** 100 times weight, severity and area, summed over the detections. */
  function Burden(ds: seq<Detection>): real {
    if ds == [] then 0.0
    else
      var d := ds[|ds| - 1];
      Burden(ds[..|ds| - 1]) + 100.0 * d.weight * d.severity * d.area
  }

  function Clamped(x: real): real {
    if x < 0.0 then 0.0 else if x > 100.0 then 100.0 else x
  }

  lemma OneTerm(w: real, s: real, a: real, n: real)
    requires n > 0.0
    ensures w * (s * a / n) * 100.0 == 100.0 * w * s * a / n
  {
    assert w * (s * a / n) == w * (s * a) / n;
    assert w * (s * a) == w * s * a;
  }

  lemma NoDetections(n: int)
    requires n >= 1
    ensures PointsLost([], n) == 0.0
  {
    assert Codes([]) == {};
    assert Deductions([], n) == map[];
  }

  lemma LoneDetection(d: Detection, n: int)
    requires n >= 1 && InRange(d)
    ensures PointsLost([d], n) == 100.0 * d.weight * d.severity * d.area / n as real
  {
    hide Deduction, Tally, Unsaturated;
    OneTally(d);
    LoneGroup(d);
    Cancellation([d], n);
    OneTerm(d.weight, d.severity, d.area, n as real);
    SumAdd(map[], d.code, Deduction([d], n));
    assert map[][d.code := Deduction([d], n)] == Deductions([d], n);
  }

  lemma OneTally(d: Detection)
    requires InRange(d)
    ensures Tally([d], SeverityArea) == d.severity * d.area
    ensures Unsaturated([d]) && AllInRange([d])
  {
    assert [d][..0] == [];
    assert Tally([d][..0], SeverityArea) == 0.0;
    forall i ensures Tally([d], AreaOn(i)) <= 1.0 { assert Tally([d][..0], AreaOn(i)) == 0.0; }
  }

  lemma LoneGroup(d: Detection)
    ensures Group([d], d.code) == [d] && Codes([d]) == {d.code}
  {
    assert [d][..0] == [];
    assert Group([d][..0], d.code) == [];
    assert d in [d];
  }

  lemma FrontFits(ds: seq<Detection>)
    requires ds != [] && AllInRange(ds) && WeightByCode(ds) && NeverSaturated(ds)
    ensures
      var front, d := ds[..|ds| - 1], ds[|ds| - 1];
      && ds == front + [d] && AllInRange(front) && AllInRange([d]) && InRange(d)
      && WeightByCode(front) && NeverSaturated(front)
  {
    hide Unsaturated;
    var front, d := ds[..|ds| - 1], ds[|ds| - 1];
    assert ds == front + [d];
    forall c ensures Unsaturated(Group(front, c)) {
      GroupConcat(front, [d], c);
      GroupInRange(front, c);
      GroupInRange([d], c);
      UnsaturatedParts(Group(front, c), Group([d], c));
    }
  }

  /** While no image is covered more than once by one type, the points lost are the burden over the images. */
  lemma {:induction false} LossIsBurden(ds: seq<Detection>, n: int)
    requires n >= 1 && AllInRange(ds) && WeightByCode(ds) && NeverSaturated(ds)
    ensures PointsLost(ds, n) == Burden(ds) / n as real
  {
    hide *;
    if ds == [] {
      NoDetections(n);
      BurdenCases(ds);
      ZeroShare(n as real);
    } else {
      var front, d := ds[..|ds| - 1], ds[|ds| - 1];
      FrontFits(ds);
      LossIsBurden(front, n);
      LossAdds(front, [d], n);
      LoneDetection(d, n);
      BurdenCases(ds);
      SumShare(Burden(front), 100.0 * d.weight * d.severity * d.area, n as real);
    }
  }

  lemma BurdenCases(ds: seq<Detection>)
    ensures ds == [] ==> Burden(ds) == 0.0
    ensures ds != [] ==>
      var d := ds[|ds| - 1];
      Burden(ds) == Burden(ds[..|ds| - 1]) + 100.0 * d.weight * d.severity * d.area
  {
  }

  lemma ZeroShare(n: real)
    requires n > 0.0
    ensures 0.0 / n == 0.0
  {
  }

  lemma SumShare(x: real, y: real, n: real)
    requires n > 0.0
    ensures (x + y) / n == x / n + y / n
  {
  }

  /** The levels of an unrounded score, threshold by threshold. */
  ghost predicate LevelsOf(r: PciResult, x: real) {
    && (r.severity == FAIBLE <==> x >= 70.0) && (r.severity == MODERE <==> 55.0 <= x < 70.0)
    && (r.severity == GRAVE <==> 40.0 <= x < 55.0) && (r.severity == CRITIQUE <==> x < 40.0)
    && (r.priority == P4_EXCELLENT <==> x >= 85.0) && (r.priority == P3_SURVEILLANCE <==> 70.0 <= x < 85.0)
    && (r.priority == P2_PLANIFIE <==> 55.0 <= x < 70.0) && (r.priority == P1_URGENT <==> 40.0 <= x < 55.0)
    && (r.priority == P0_CRITIQUE <==> x < 40.0)
  }

  /** For any input: the stored score is the clamped one to the nearest cent, and the levels are of the clamped one. */
  lemma AnswerParts(ds: seq<Detection>, n: int)
    requires n >= 1
    ensures
      var r, x := PciOf(ds, n), Clamped(100.0 - PointsLost(ds, n));
      x - 0.005 <= r.score <= x + 0.005 && LevelsOf(r, x) && r.deductions == Breakdown(ds, n)
  {
    hide PointsLost, Breakdown, Round2;
    Round2Near(Score(ds, n));
  }

  /**
   While no image is covered more than once by one type, the stored score is within half a cent of
   100 - (sum of 100 weight severity area) / images, clamped to [0, 100], and both levels are those of that value.
   */
  lemma ScoreMeans(ds: seq<Detection>, n: int)
    requires n >= 1 && AllInRange(ds) && WeightByCode(ds) && NeverSaturated(ds)
    ensures
      var r, x := PciOf(ds, n), Clamped(100.0 - Burden(ds) / n as real);
      x - 0.005 <= r.score <= x + 0.005 && LevelsOf(r, x)
  {
    hide *;
    AnswerParts(ds, n);
    LossIsBurden(ds, n);
  }

  // ---- The reported densities

  lemma Shifted(q: real, e: real, n: real)
    ensures (q + e) * n == q * n + e * n
  {
  }

  lemma TimesImages(x: real, r: real, n: real)
    requires n > 0.0 && x / n - 0.00005 <= r <= x / n + 0.00005
    ensures x - 0.00005 * n <= r * n <= x + 0.00005 * n
  {
    var q := x / n;
    assert q * n == x;
    Shifted(q, -0.00005, n);
    Shifted(q, 0.00005, n);
    Scaled(q + -0.00005, r, n);
    Scaled(r, q + 0.00005, n);
  }

  /** A reported density times the images is the capped area of its type over the images it touches, within the rounding. */
  lemma DensityMeans(ds: seq<Detection>, n: int, k: nat)
    requires n >= 1 && k < |PciOf(ds, n).deductions|
    ensures
      var e := PciOf(ds, n).deductions[k];
      e.code in Codes(ds) &&
      var covered := Sum(PerImage(Group(ds, e.code)));
      covered - 0.00005 * n as real <= e.density * n as real <= covered + 0.00005 * n as real
  {
    hide *;
    AnswerParts(ds, n);
    BreakdownAt(ds, n, k);
    var c := Listing(Codes(ds))[k];
    var g := Group(ds, c);
    EntryFields(c, g, n);
    DensityIs(g, n);
    DamagedIs(g);
    Round4Near(Density(g, n));
    TimesImages(Damaged(g), Round4(Density(g, n)), n as real);
  }

  lemma DamagedIs(g: seq<Detection>)
    ensures Damaged(g) == Sum(PerImage(g))
  {
    hide PerImage;
  }

  // ---- The mean severity, and an entry as a whole

  lemma SharesTimes(x: real, y: real)
    requires y > 0.0
    ensures x / y * y == x
  {
  }

  /** The mean severity by area, and the plain mean for a type without area. */
  lemma MeanMeans(g: seq<Detection>)
    requires g != []
    ensures Tally(g, Area) > 0.0 ==> MeanSeverity(g) * Tally(g, Area) == Tally(g, SeverityArea)
    ensures Tally(g, Area) <= 0.0 ==> MeanSeverity(g) * |g| as real == Tally(g, Severity)
  {
    hide Tally;
    if Tally(g, Area) > 0.0 {
      SharesTimes(Tally(g, SeverityArea), Tally(g, Area));
    } else {
      SharesTimes(Tally(g, Severity), |g| as real);
    }
  }

  /** Each entry of the answer reports its type's weight, mean severity and points to the fourth decimal. */
  lemma EntryMeans(ds: seq<Detection>, n: int, k: nat)
    requires n >= 1 && k < |PciOf(ds, n).deductions|
    ensures
      var e := PciOf(ds, n).deductions[k];
      e.code in Codes(ds) &&
      var g := Group(ds, e.code);
      var points := Points(g[0].weight, MeanSeverity(g), Sum(PerImage(g)) / n as real);
      && Abs(e.weight - g[0].weight) <= 0.00005
      && Abs(e.meanSeverity - MeanSeverity(g)) <= 0.00005
      && Abs(e.deduction - points) <= 0.00005
  {
    hide *;
    AnswerParts(ds, n);
    BreakdownAt(ds, n, k);
    var g := Group(ds, Listing(Codes(ds))[k]);
    EntryFields(Listing(Codes(ds))[k], g, n);
    DeductionParts(g, n);
    DamagedIs(g);
    Near4(g[0].weight);
    Near4(MeanSeverity(g));
    Near4(Deduction(g, n));
  }

  lemma Near4(x: real)
    ensures Abs(Round4(x) - x) <= 0.00005
  {
    hide Round4;
    Round4Near(x);
  }

  // ---- Two numbers of images

  /** More images never lower the stored score of the answer and never worsen its levels. */
  lemma AnswerDiluted(ds: seq<Detection>, n: int, m: int)
    requires 1 <= n <= m && AllInRange(ds) && WeightsNonNegative(ds)
    ensures
      var a, b := PciOf(ds, n), PciOf(ds, m);
      && a.score <= b.score
      && SeverityRank(b.severity) <= SeverityRank(a.severity)
      && PriorityRank(b.priority) <= PriorityRank(a.priority)
  {
    hide StoredScore, Score, Breakdown, AllInRange, WeightsNonNegative, SeverityRank, PriorityRank;
    Dilution(ds, n, m);
  }

  /** The points an answer lacks of 100, times the images. */
  function Lacking(score: real, n: real): real {
    n * (100.0 - score)
  }

  /** Unclamped, this is the same for both answers, within their rounding. */
  lemma AnswerDilutedExactly(ds: seq<Detection>, n: int, m: int)
    requires n >= 1 && m >= 1 && 0.0 <= PointsLost(ds, n) <= 100.0 && 0.0 <= PointsLost(ds, m) <= 100.0
    ensures
      var x, y := Lacking(PciOf(ds, n).score, n as real), Lacking(PciOf(ds, m).score, m as real);
      x - 0.005 * (n as real + m as real) <= y <= x + 0.005 * (n as real + m as real)
  {
    hide *;
    LackingNear(ds, n);
    LackingNear(ds, m);
    DilutionExact(ds, n, m);
  }

  lemma LackingNear(ds: seq<Detection>, n: int)
    requires n >= 1 && 0.0 <= PointsLost(ds, n) <= 100.0
    ensures
      var x, e := Lacking(PciOf(ds, n).score, n as real), 0.005 * n as real;
      n as real * PointsLost(ds, n) - e <= x <= n as real * PointsLost(ds, n) + e
  {
    hide *;
    AnswerParts(ds, n);
    Inside(100.0 - PointsLost(ds, n));
    NearTimes(PointsLost(ds, n), PciOf(ds, n).score, n as real);
  }

  lemma Inside(x: real)
    requires 0.0 <= x <= 100.0
    ensures Clamped(x) == x
  {
  }

  lemma NearTimes(lost: real, score: real, n: real)
    requires n > 0.0 && 100.0 - lost - 0.005 <= score <= 100.0 - lost + 0.005
    ensures n * lost - 0.005 * n <= Lacking(score, n) <= n * lost + 0.005 * n
  {
    hide *;
    var e := 100.0 - score - lost;
    LackingIs(lost, e, n);
    assert 100.0 - (lost + e) == score;
    TwoSided(e, n);
  }

  lemma TwoSided(e: real, n: real)
    requires -0.005 <= e <= 0.005 && n > 0.0
    ensures -(0.005 * n) <= e * n <= 0.005 * n
  {
    Scaled(e, 0.005, n);
    Scaled(-e, 0.005, n);
    assert -e * n == -(e * n);
  }

  lemma LackingIs(lost: real, e: real, n: real)
    ensures Lacking(100.0 - (lost + e), n) == n * lost + e * n
  {
    Shifted(lost, e, n);
  }
}

/**
 Bounds of the condition index: every part of the formula stays in its range when the detections come
 from the analysed images, the reported breakdown adds up to the stored score within the rounding, and
 the band of the stored score differs from the recorded band only just below a threshold.
 */
module PciBounds {
  import opened Rounding
  import opened Ordering
  import opened Sums
  import opened PciEngine
  import opened PciOrder
  import opened PciAreas

  // ---- Range of each part

  ghost predicate SeverityBetween(g: seq<Detection>, lo: real, hi: real) {
    forall i :: 0 <= i < |g| ==> lo <= g[i].severity <= hi
  }

  lemma TallyLastTerms(g: seq<Detection>)
    requires g != []
    ensures
      var front, d := g[..|g| - 1], g[|g| - 1];
      && Tally(g, Area) == Tally(front, Area) + d.area
      && Tally(g, SeverityArea) == Tally(front, SeverityArea) + d.severity * d.area
      && Tally(g, Severity) == Tally(front, Severity) + d.severity
  {
  }

  lemma TallyEmpty(q: Quantity)
    ensures Tally([], q) == 0.0
  {
  }

  lemma LastInRange(g: seq<Detection>, lo: real, hi: real)
    requires AllInRange(g) && SeverityBetween(g, lo, hi) && g != []
    ensures AllInRange(g[..|g| - 1]) && SeverityBetween(g[..|g| - 1], lo, hi)
    ensures lo <= g[|g| - 1].severity <= hi && g[|g| - 1].area >= 0.0
  {
    assert InRange(g[|g| - 1]);
  }

  lemma BetweenLast(lo: real, hi: real, total: real, weighted: real, x: real, s: real)
    requires lo * total <= weighted <= hi * total && lo <= s <= hi && x >= 0.0
    ensures lo * (total + x) <= weighted + s * x <= hi * (total + x)
  {
    BetweenStep(lo, hi, total, x);
    Scaled(lo, s, x);
    Scaled(s, hi, x);
  }

  lemma {:induction false} TallyBetween(g: seq<Detection>, lo: real, hi: real)
    requires AllInRange(g) && SeverityBetween(g, lo, hi)
    ensures lo * Tally(g, Area) <= Tally(g, SeverityArea) <= hi * Tally(g, Area)
    ensures lo * |g| as real <= Tally(g, Severity) <= hi * |g| as real
  {
    hide *;
    if g == [] {
      TallyEmpty(Area);
      TallyEmpty(SeverityArea);
      TallyEmpty(Severity);
    } else {
      var front, d := g[..|g| - 1], g[|g| - 1];
      LastInRange(g, lo, hi);
      TallyBetween(front, lo, hi);
      TallyLastTerms(g);
      BetweenLast(lo, hi, Tally(front, Area), Tally(front, SeverityArea), d.area, d.severity);
      BetweenLast(lo, hi, |front| as real, Tally(front, Severity), 1.0, d.severity);
    }
  }

  lemma BetweenStep(lo: real, hi: real, x: real, y: real)
    ensures lo * (x + y) == lo * x + lo * y && hi * (x + y) == hi * x + hi * y
  {
  }

  lemma RatioBetween(lo: real, hi: real, s: real, a: real)
    requires a > 0.0 && lo * a <= s <= hi * a
    ensures lo <= s / a <= hi
  {
    Divided(lo * a, s, a);
    Divided(s, hi * a, a);
    assert lo * a / a == lo && hi * a / a == hi;
  }

  /** The mean severity of a type lies between its mildest and its severest detection. */
  lemma MeanBetween(g: seq<Detection>, lo: real, hi: real)
    requires g != [] && AllInRange(g) && SeverityBetween(g, lo, hi)
    ensures lo <= MeanSeverity(g) <= hi
  {
    hide Tally;
    TallyBetween(g, lo, hi);
    if Tally(g, Area) > 0.0 {
      RatioBetween(lo, hi, Tally(g, SeverityArea), Tally(g, Area));
    } else {
      RatioBetween(lo, hi, Tally(g, Severity), |g| as real);
    }
  }

  lemma SubsetSize<T>(a: set<T>, b: set<T>)
    requires a <= b
    ensures |a| <= |b|
  {
    assert b == a + (b - a);
  }

  /** Every detection is on one of the analysed images. */
  ghost predicate OnImages(ds: seq<Detection>, images: set<ImageId>, n: int) {
    Images(ds) <= images && |images| == n
  }

  lemma DensityAtMostOne(g: seq<Detection>, images: set<ImageId>, n: int)
    requires n >= 1 && AllInRange(g) && OnImages(g, images, n)
    ensures 0.0 <= Density(g, n) <= 1.0
  {
    DensityNonNegative(g, n);
    SumAtMostSize(PerImage(g));
    assert PerImage(g).Keys == Images(g);
    assert |PerImage(g)| == |Images(g)|;
    SubsetSize(Images(g), images);
    Divided(Damaged(g), n as real, n as real);
    assert n as real / n as real == 1.0;
  }

  lemma PointsAtMost(w: real, m: real, k: real)
    requires w >= 0.0 && 0.0 <= m <= 1.0 && 0.0 <= k <= 1.0
    ensures 0.0 <= Points(w, m, k) <= Times(100.0)(w)
  {
    Product(w, m, k, w, 1.0, 1.0);
  }

  lemma GroupOnImages(ds: seq<Detection>, c: Code, images: set<ImageId>, n: int)
    requires OnImages(ds, images, n)
    ensures OnImages(Group(ds, c), images, n)
  {
    GroupMembers(ds, c);
  }

  lemma SeverityUnit(g: seq<Detection>)
    requires AllInRange(g)
    ensures SeverityBetween(g, 0.0, 1.0)
  {
    assert forall i :: 0 <= i < |g| ==> InRange(g[i]);
  }

  /** One type costs at most 100 times its weight. */
  lemma DeductionAtMost(ds: seq<Detection>, c: Code, images: set<ImageId>, n: int)
    requires n >= 1 && AllInRange(ds) && WeightsNonNegative(ds) && OnImages(ds, images, n) && c in Codes(ds)
    ensures 0.0 <= Deduction(Group(ds, c), n) <= Times(100.0)(Group(ds, c)[0].weight)
  {
    hide *;
    var g := Group(ds, c);
    GroupInRange(ds, c);
    GroupWeight(ds, c);
    GroupOnImages(ds, c, images, n);
    SeverityUnit(g);
    MeanBetween(g, 0.0, 1.0);
    DensityAtMostOne(g, images, n);
    DensityIs(g, n);
    DeductionParts(g, n);
    PointsAtMost(g[0].weight, MeanSeverity(g), Density(g, n));
  }

  lemma DensityIs(g: seq<Detection>, n: int)
    requires n >= 1
    ensures Density(g, n) == Damaged(g) / n as real
  {
  }

  /** The weight of each type present. */
  ghost function Weights(ds: seq<Detection>): map<Code, real> {
    map c | c in Codes(ds) :: Group(ds, c)[0].weight
  }

  /** The score loses at most 100 points times the total weight of the types present. */
  lemma LossBounds(ds: seq<Detection>, images: set<ImageId>, n: int)
    requires n >= 1 && AllInRange(ds) && WeightsNonNegative(ds) && OnImages(ds, images, n)
    ensures 0.0 <= PointsLost(ds, n) <= Times(100.0)(Sum(Weights(ds)))
  {
    hide Deduction, Times, WeightsNonNegative, OnImages, Group;
    forall c | c in Codes(ds)
      ensures 0.0 <= Deduction(Group(ds, c), n) <= Times(100.0)(Group(ds, c)[0].weight)
    {
      DeductionAtMost(ds, c, images, n);
    }
    var caps := map c | c in Codes(ds) :: Times(100.0)(Weights(ds)[c]);
    TimesAdditive(100.0);
    SumAdditive(Weights(ds), caps, Times(100.0));
    SumMonotone(Deductions(ds, n), caps);
    SumNonNegative(Deductions(ds, n));
  }

  /** The unclamped score is at most 100, and at least 100 (1 - total weight): then neither clamp acts. */
  lemma RawScoreBounds(ds: seq<Detection>, images: set<ImageId>, n: int)
    requires n >= 1 && AllInRange(ds) && WeightsNonNegative(ds) && OnImages(ds, images, n)
    ensures 100.0 * (1.0 - Sum(Weights(ds))) <= RawScore(ds, n) <= 100.0
    ensures Sum(Weights(ds)) <= 1.0 ==> Score(ds, n) == RawScore(ds, n)
  {
    hide PointsLost, Weights, WeightsNonNegative, OnImages;
    LossBounds(ds, images, n);
  }

  lemma ScoreUnit(x: real)
    requires 0.0 <= x <= 100.0
    ensures 0.0 <= Round2(x) <= 100.0
  {
    Round2OnGrid(0);
    Round2OnGrid(10000);
    Round2Monotone(0.0, x);
    Round2Monotone(x, 100.0);
  }

  /** The stored score meets the CHECK of its column. */
  lemma StoredScoreInRange(ds: seq<Detection>, n: int)
    requires n >= 1
    ensures 0.0 <= Score(ds, n) <= 100.0 && 0.0 <= StoredScore(ds, n) <= 100.0
  {
    hide RawScore, Round2;
    ScoreUnit(Score(ds, n));
  }

  // ---- The breakdown adds up

  function Reported(b: seq<TypeDeduction>): real {
    if b == [] then 0.0 else Reported(b[..|b| - 1]) + b[|b| - 1].deduction
  }

  lemma ReportedSteps(b: seq<TypeDeduction>, k: nat)
    requires k <= |b|
    ensures k == 0 ==> Reported(b[..k]) == 0.0
    ensures k > 0 ==> Reported(b[..k]) == Reported(b[..k - 1]) + b[k - 1].deduction
  {
    if k > 0 { assert b[..k][..k - 1] == b[..k - 1]; }
  }

  lemma {:induction false} ReportedNear(ds: seq<Detection>, n: int, k: nat)
    requires n >= 1 && k <= |Listing(Codes(ds))|
    ensures
      PartialLoss(ds, n, k) - 0.00005 * k as real
        <= Reported(Breakdown(ds, n)[..k])
        <= PartialLoss(ds, n, k) + 0.00005 * k as real
  {
    hide *;
    PartialLossEnds(ds, n);
    ReportedSteps(Breakdown(ds, n), k);
    if k > 0 {
      ReportedNear(ds, n, k - 1);
      PartialLossStep(ds, n, k - 1);
      Round4Near(DeductionAt(ds, n, k - 1));
    }
  }

  lemma AllReported(ds: seq<Detection>, n: int)
    requires n >= 1
    ensures
      var k := |Breakdown(ds, n)| as real;
      PointsLost(ds, n) - 0.00005 * k <= Reported(Breakdown(ds, n)) <= PointsLost(ds, n) + 0.00005 * k
  {
    hide PartialLoss, PointsLost, Breakdown, Entry;
    var codes := Listing(Codes(ds));
    ReportedNear(ds, n, |codes|);
    PartialLossEnds(ds, n);
    assert Breakdown(ds, n)[..|codes|] == Breakdown(ds, n);
  }

  /**
   The reported deductions and the stored score add up to 100 within half a cent and half a unit of
   the fourth decimal per type, while the score is not clamped at zero; when it is, the reported
   deductions reach 100 within the same tolerance.
   */
  lemma Reconciliation(ds: seq<Detection>, n: int)
    requires n >= 1 && AllInRange(ds) && WeightsNonNegative(ds)
    ensures
      var k := |Breakdown(ds, n)| as real;
      RawScore(ds, n) >= 0.0 ==>
        Abs(Reported(Breakdown(ds, n)) + StoredScore(ds, n) - 100.0) <= 0.005 + 0.00005 * k
    ensures
      var k := |Breakdown(ds, n)| as real;
      RawScore(ds, n) <= 0.0 ==> Reported(Breakdown(ds, n)) >= 100.0 - 0.00005 * k
  {
    hide Deduction, PointsLost, Breakdown, Round2;
    AllReported(ds, n);
    LossNonNegative(ds, n);
    Round2Near(Score(ds, n));
  }

  lemma LossNonNegative(ds: seq<Detection>, n: int)
    requires n >= 1 && AllInRange(ds) && WeightsNonNegative(ds)
    ensures PointsLost(ds, n) >= 0.0
  {
    hide Deduction;
    forall c | c in Codes(ds) ensures Deduction(Group(ds, c), n) >= 0.0 {
      GroupInRange(ds, c);
      GroupWeight(ds, c);
      DeductionNonNegative(Group(ds, c), n);
    }
    SumNonNegative(Deductions(ds, n));
  }

  /** The severities of one type, in units of the fourth decimal. */
  ghost predicate TypeBetween(ds: seq<Detection>, c: Code, lo: int, hi: int) {
    SeverityBetween(Group(ds, c), lo as real / 10000.0, hi as real / 10000.0)
  }

  /**
   Each entry of the breakdown reports its own type: the types are listed once each in the order of their codes,
   a mean severity between the mildest and the severest detection of the type, a density that is a fraction of
   the survey, and a deduction of at most 100 times the weight.
   */
  lemma EntryInRange(ds: seq<Detection>, images: set<ImageId>, n: int, k: nat, lo: int, hi: int)
    requires n >= 1 && AllInRange(ds) && WeightsNonNegative(ds) && OnImages(ds, images, n)
    requires k < |Breakdown(ds, n)| && TypeBetween(ds, Listing(Codes(ds))[k], lo, hi)
    ensures
      var e := Breakdown(ds, n)[k];
      && e.code == Listing(Codes(ds))[k] && e.code in Codes(ds)
      && lo as real / 10000.0 <= e.meanSeverity <= hi as real / 10000.0
      && 0.0 <= e.density <= 1.0
      && e.weight == Round4(Group(ds, e.code)[0].weight)
      && 0.0 <= e.deduction <= Round4(Times(100.0)(Group(ds, e.code)[0].weight))
  {
    hide *;
    BreakdownAt(ds, n, k);
    var c := Listing(Codes(ds))[k];
    var g := Group(ds, c);
    EntryFields(c, g, n);
    GroupInRange(ds, c);
    GroupOnImages(ds, c, images, n);
    TypeBetweenIs(ds, c, lo, hi);
    MeanBetween(g, lo as real / 10000.0, hi as real / 10000.0);
    Round4Within(lo, MeanSeverity(g), hi);
    DensityAtMostOne(g, images, n);
    Round4Within(0, Density(g, n), 10000);
    DeductionAtMost(ds, c, images, n);
    Round4OnGrid(0);
    Round4Monotone(0.0, Deduction(g, n));
    Round4Monotone(Deduction(g, n), Times(100.0)(g[0].weight));
  }

  lemma EntryFields(c: Code, g: seq<Detection>, n: int)
    requires g != [] && n >= 1
    ensures
      var e := Entry(c, g, n);
      && e.code == c && e.weight == Round4(g[0].weight) && e.meanSeverity == Round4(MeanSeverity(g))
      && e.density == Round4(Density(g, n)) && e.deduction == Round4(Deduction(g, n))
  {
    hide MeanSeverity, Density, Deduction, Round4;
  }

  lemma TypeBetweenIs(ds: seq<Detection>, c: Code, lo: int, hi: int)
    requires TypeBetween(ds, c, lo, hi)
    ensures SeverityBetween(Group(ds, c), lo as real / 10000.0, hi as real / 10000.0)
  {
  }

  // ---- When a lift shows in the stored score

  /** A half cent lies above the one value and not above the other. */
  ghost predicate HalfCentBetween(x: real, y: real, t: int) {
    x < t as real / 100.0 - 0.005 <= y
  }

  /** Rounding to cents tells two values apart exactly when a half cent lies between them. */
  lemma Round2Apart(x: real, y: real)
    requires 0.0 <= x <= y
    ensures Round2(x) < Round2(y) <==> exists t :: HalfCentBetween(x, y, t)
  {
    hide Round2;
    Round2Monotone(x, y);
    var n := HalfUp(y * 100.0);
    CentsOf(y);
    Round2ReachesCents(x, n);
    Round2ReachesCents(y, n);
    if Round2(x) < Round2(y) { assert HalfCentBetween(x, y, n); }
    if t :| HalfCentBetween(x, y, t) {
      Round2ReachesCents(x, t);
      Round2ReachesCents(y, t);
    }
  }

  lemma CentsOf(x: real)
    ensures Round2(x) == HalfUp(x * 100.0) as real / 100.0
  {
    hide HalfUp;
  }

  /** A whole cent is always enough. */
  lemma CentShows(x: real, y: real)
    requires 0.0 <= x && x + 0.01 <= y
    ensures HalfCentBetween(x, y, HalfUp(x * 100.0) + 1)
  {
  }

  /**
   A further detection that lifts the unclamped score never lowers the stored one, and raises it exactly when a
   half cent lies between the clamped scores, for certain when they are a cent apart.
   */
  lemma LiftShowsExactly(ds: seq<Detection>, d: Detection, n: int)
    requires n >= 1 && AllInRange(ds) && InRange(d) && WeightsNonNegative(ds) && d.weight >= 0.0
    requires Lifts(Group(ds, d.code), d)
    ensures StoredScore(ds + [d], n) >= StoredScore(ds, n)
    ensures StoredScore(ds + [d], n) > StoredScore(ds, n)
       <==> exists t :: HalfCentBetween(Score(ds, n), Score(ds + [d], n), t)
    ensures Score(ds + [d], n) >= Score(ds, n) + 0.01 ==> StoredScore(ds + [d], n) > StoredScore(ds, n)
  {
    hide RawScore, Round2, Lifts, HalfUp, HalfCentBetween, AllInRange, WeightsNonNegative, Group;
    OneMoreBox(ds, d, n);
    var x, y := Score(ds, n), Score(ds + [d], n);
    Round2Monotone(x, y);
    Round2Apart(x, y);
    if y >= x + 0.01 { CentShows(x, y); }
  }

  // ---- The band of the stored score

  ghost predicate JustBelow(x: real, t: int) {
    t as real - 0.005 <= x < t as real
  }

  /**
   The band of the stored score against the band recorded before rounding: never worse, different
   exactly just below a threshold, and then better by one level.
   */
  lemma PriorityAfterRounding(x: real)
    requires x >= 0.0
    ensures
      var recorded, stored := PriorityRank(ClassifyPriority(x)), PriorityRank(ClassifyPriority(Round2(x)));
      && (stored == recorded || stored == recorded - 1)
      && (stored != recorded <==> JustBelow(x, 40) || JustBelow(x, 55) || JustBelow(x, 70) || JustBelow(x, 85))
  {
    hide Round2;
    Round2Reaches(x, 40);
    Round2Reaches(x, 55);
    Round2Reaches(x, 70);
    Round2Reaches(x, 85);
  }

  lemma SeverityAfterRounding(x: real)
    requires x >= 0.0
    ensures
      var recorded, stored := SeverityRank(ClassifySeverity(x)), SeverityRank(ClassifySeverity(Round2(x)));
      && (stored == recorded || stored == recorded - 1)
      && (stored != recorded <==> JustBelow(x, 40) || JustBelow(x, 55) || JustBelow(x, 70))
  {
    hide Round2;
    Round2Reaches(x, 40);
    Round2Reaches(x, 55);
    Round2Reaches(x, 70);
  }
}

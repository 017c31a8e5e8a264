/**
 How the condition index moves with its inputs: it ignores the order of the detections, it never
 rises when severities rise, and it never falls when the same damage is spread over more images.
 */
module PciOrder {
  import opened Rounding
  import opened Ordering
  import opened Sums
  import opened PciEngine

  // ---- Arithmetic

  lemma Scaled(x: real, y: real, c: real)
    requires x <= y && c >= 0.0
    ensures x * c <= y * c && c * x <= c * y
  {
  }

  lemma Divided(x: real, y: real, c: real)
    requires x <= y && c > 0.0
    ensures x / c <= y / c
  {
  }

  lemma Quotient(x: real, n: real, m: real)
    requires x >= 0.0 && 0.0 < n <= m
    ensures 0.0 <= x / m <= x / n
  {
    assert x / n * n == x && x / m * m == x;
    Scaled(n, m, x / m);
  }

  // ---- Order of the input

  lemma {:induction false} TallyInsert(ds: seq<Detection>, k: nat, q: Quantity)
    requires k < |ds|
    ensures Tally(ds, q) == Tally(ds[..k] + ds[k + 1..], q) + Value(ds[k], q)
  {
    var last := |ds| - 1;
    var rest := ds[..k] + ds[k + 1..];
    if k < last {
      TallyInsert(ds[..last], k, q);
      assert rest[..|rest| - 1] == ds[..last][..k] + ds[..last][k + 1..];
      assert rest[|rest| - 1] == ds[last];
    } else {
      assert rest == ds[..last];
    }
  }

  lemma {:induction false} TallyPermutation(ds: seq<Detection>, es: seq<Detection>, q: Quantity)
    requires multiset(ds) == multiset(es)
    ensures Tally(ds, q) == Tally(es, q)
    decreases |ds|
  {
    assert |ds| == |multiset(ds)| == |multiset(es)| == |es|;
    if ds != [] {
      var k := Occurrence(ds, es);
      TallyPermutation(ds[..|ds| - 1], es[..k] + es[k + 1..], q);
      TallyInsert(es, k, q);
    }
  }

  lemma {:induction false} GroupCounts(ds: seq<Detection>, c: Code, d: Detection)
    ensures multiset(Group(ds, c))[d] == if d.code == c then multiset(ds)[d] else 0
  {
    if ds != [] {
      var last := ds[|ds| - 1];
      GroupCounts(ds[..|ds| - 1], c, d);
      assert ds == ds[..|ds| - 1] + [last];
    }
  }

  lemma GroupPermutation(ds: seq<Detection>, es: seq<Detection>, c: Code)
    requires multiset(ds) == multiset(es)
    ensures multiset(Group(ds, c)) == multiset(Group(es, c))
  {
    forall d ensures multiset(Group(ds, c))[d] == multiset(Group(es, c))[d] {
      GroupCounts(ds, c, d);
      GroupCounts(es, c, d);
    }
  }

  lemma SameMembers(ds: seq<Detection>, es: seq<Detection>)
    requires multiset(ds) == multiset(es)
    ensures Codes(ds) == Codes(es) && Images(ds) == Images(es) && |ds| == |es|
  {
    assert forall d :: d in ds <==> d in multiset(ds);
    assert forall d :: d in es <==> d in multiset(es);
    assert |ds| == |multiset(ds)| && |es| == |multiset(es)|;
  }

  /** The weight is looked up by code, so detections of one type carry one weight. */
  ghost predicate WeightByCode(ds: seq<Detection>) {
    forall d, e :: d in ds && e in ds && d.code == e.code ==> d.weight == e.weight
  }

  lemma DeductionPermutation(g: seq<Detection>, h: seq<Detection>, n: int)
    requires n >= 1 && g != [] && multiset(g) == multiset(h) && g[0].weight == h[0].weight
    ensures h != [] && MeanSeverity(g) == MeanSeverity(h) && Density(g, n) == Density(h, n)
  {
    SameMembers(g, h);
    TallyPermutation(g, h, Area);
    TallyPermutation(g, h, SeverityArea);
    TallyPermutation(g, h, Severity);
    forall i ensures Tally(g, AreaOn(i)) == Tally(h, AreaOn(i)) {
      TallyPermutation(g, h, AreaOn(i));
    }
    assert PerImage(g) == PerImage(h);
  }

  lemma FirstWeight(ds: seq<Detection>, es: seq<Detection>, c: Code)
    requires multiset(ds) == multiset(es) && WeightByCode(ds) && c in Codes(ds) && c in Codes(es)
    ensures Group(ds, c)[0].weight == Group(es, c)[0].weight
  {
    GroupMembers(ds, c);
    GroupMembers(es, c);
    var d, e := Group(ds, c)[0], Group(es, c)[0];
    assert d in Group(ds, c) && e in Group(es, c);
    assert e in multiset(es);
  }

  lemma EntryPermutation(ds: seq<Detection>, es: seq<Detection>, n: int, c: Code)
    requires n >= 1 && multiset(ds) == multiset(es) && WeightByCode(ds) && c in Codes(ds)
    ensures c in Codes(es)
    ensures Deduction(Group(ds, c), n) == Deduction(Group(es, c), n)
    ensures Entry(c, Group(ds, c), n) == Entry(c, Group(es, c), n)
  {
    hide MeanSeverity, Density, Points;
    SameMembers(ds, es);
    GroupPermutation(ds, es, c);
    var g, h := Group(ds, c), Group(es, c);
    FirstWeight(ds, es, c);
    DeductionPermutation(g, h, n);
  }

  lemma SameBreakdown(ds: seq<Detection>, es: seq<Detection>, n: int)
    requires n >= 1 && Codes(ds) == Codes(es)
    requires forall c :: c in Codes(ds) ==> Entry(c, Group(ds, c), n) == Entry(c, Group(es, c), n)
    ensures Breakdown(ds, n) == Breakdown(es, n)
  {
    hide Entry, Breakdown;
    var b, b' := Breakdown(ds, n), Breakdown(es, n);
    forall k | 0 <= k < |b| ensures b[k] == b'[k] {
      BreakdownAt(ds, n, k);
      BreakdownAt(es, n, k);
    }
  }

  /** The whole answer ignores the order of the detections, when the weight is a function of the code. */
  lemma ScorePermutation(ds: seq<Detection>, es: seq<Detection>, n: int)
    requires n >= 1 && multiset(ds) == multiset(es) && WeightByCode(ds)
    ensures PciOf(ds, n) == PciOf(es, n)
  {
    hide Deduction, Entry, Breakdown;
    SameMembers(ds, es);
    forall c | c in Codes(ds)
      ensures Deduction(Group(ds, c), n) == Deduction(Group(es, c), n)
      ensures Entry(c, Group(ds, c), n) == Entry(c, Group(es, c), n)
    {
      EntryPermutation(ds, es, n, c);
    }
    assert Deductions(ds, n) == Deductions(es, n);
    SameBreakdown(ds, es, n);
  }

  // ---- Rising severities

  /** The same boxes, each at least as severe. */
  ghost predicate Worse(ds: seq<Detection>, es: seq<Detection>) {
    && |ds| == |es|
    && forall i :: 0 <= i < |ds| ==> es[i] == ds[i].(severity := es[i].severity) && ds[i].severity <= es[i].severity
  }

  ghost predicate WeightsNonNegative(ds: seq<Detection>) {
    forall i :: 0 <= i < |ds| ==> ds[i].weight >= 0.0
  }

  lemma {:induction false} GroupWorse(ds: seq<Detection>, es: seq<Detection>, c: Code)
    requires Worse(ds, es)
    ensures Worse(Group(ds, c), Group(es, c))
  {
    if ds != [] {
      GroupWorse(ds[..|ds| - 1], es[..|es| - 1], c);
    }
  }

  lemma {:induction false} SameCodes(ds: seq<Detection>, es: seq<Detection>)
    requires Worse(ds, es)
    ensures Codes(ds) == Codes(es)
  {
    if ds != [] {
      var n := |ds| - 1;
      SameCodes(ds[..n], es[..n]);
      CodesStep(ds, n);
      CodesStep(es, n);
      assert ds[..n + 1] == ds && es[..n + 1] == es;
    }
  }

  lemma {:induction false} TallyWorse(g: seq<Detection>, h: seq<Detection>, q: Quantity)
    requires Worse(g, h) && AllInRange(g)
    ensures Tally(g, q) <= Tally(h, q)
    ensures q.Area? || q.AreaOn? ==> Tally(g, q) == Tally(h, q)
  {
    if g != [] {
      var n := |g| - 1;
      TallyWorse(g[..n], h[..n], q);
      assert InRange(g[n]);
      Scaled(g[n].severity, h[n].severity, g[n].area);
    }
  }

  lemma MeanWorse(g: seq<Detection>, h: seq<Detection>)
    requires Worse(g, h) && AllInRange(g) && g != []
    ensures MeanSeverity(g) <= MeanSeverity(h)
  {
    TallyWorse(g, h, Area);
    TallyWorse(g, h, SeverityArea);
    TallyWorse(g, h, Severity);
    if Tally(g, Area) > 0.0 {
      Divided(Tally(g, SeverityArea), Tally(h, SeverityArea), Tally(g, Area));
    } else {
      Divided(Tally(g, Severity), Tally(h, Severity), |g| as real);
    }
  }

  lemma {:induction false} SameImages(g: seq<Detection>, h: seq<Detection>)
    requires Worse(g, h)
    ensures Images(g) == Images(h)
  {
    if g != [] {
      var n := |g| - 1;
      SameImages(g[..n], h[..n]);
      assert g == g[..n] + [g[n]] && h == h[..n] + [h[n]];
      assert Images(g) == Images(g[..n]) + {g[n].image};
      assert Images(h) == Images(h[..n]) + {g[n].image};
    }
  }

  lemma DamagedWorse(g: seq<Detection>, h: seq<Detection>)
    requires Worse(g, h) && AllInRange(g)
    ensures Damaged(g) == Damaged(h)
  {
    forall i ensures Tally(g, AreaOn(i)) == Tally(h, AreaOn(i)) {
      TallyWorse(g, h, AreaOn(i));
    }
    SameImages(g, h);
    assert PerImage(g) == PerImage(h);
  }

  lemma DamagedNonNegative(g: seq<Detection>)
    requires AllInRange(g)
    ensures Damaged(g) >= 0.0
  {
    forall i | i in PerImage(g) ensures PerImage(g)[i] >= 0.0 {
      TallyNonNegative(g, AreaOn(i));
    }
    SumNonNegative(PerImage(g));
  }

  lemma DensityNonNegative(g: seq<Detection>, n: int)
    requires AllInRange(g) && n >= 1
    ensures Density(g, n) >= 0.0
  {
    DamagedNonNegative(g);
    Divided(0.0, Damaged(g), n as real);
  }

  lemma Product2(x: real, y: real, x': real, y': real)
    requires 0.0 <= x <= x' && 0.0 <= y <= y'
    ensures 0.0 <= x * y <= x' * y'
  {
    Scaled(0.0, x, y);
    Scaled(x, x', y);
    Scaled(y, y', x');
  }

  lemma PointsIs(w: real, m: real, k: real)
    ensures Points(w, m, k) == w * m * k * 100.0
  {
  }

  lemma Product(w: real, m: real, k: real, w': real, m': real, k': real)
    requires 0.0 <= w <= w' && 0.0 <= m <= m' && 0.0 <= k <= k'
    ensures 0.0 <= Points(w, m, k) <= Points(w', m', k')
  {
    hide *;
    PointsIs(w, m, k);
    PointsIs(w', m', k');
    Product2(w, m, w', m');
    Product2(w * m, k, w' * m', k');
    Product2(w * m * k, 100.0, w' * m' * k', 100.0);
  }

  lemma MeanNonNegative(g: seq<Detection>)
    requires AllInRange(g) && g != []
    ensures MeanSeverity(g) >= 0.0
  {
    TallyNonNegative(g, SeverityArea);
    TallyNonNegative(g, Severity);
    if Tally(g, Area) > 0.0 {
      Divided(0.0, Tally(g, SeverityArea), Tally(g, Area));
    }
  }

  lemma DeductionWorse(g: seq<Detection>, h: seq<Detection>, n: int)
    requires Worse(g, h) && AllInRange(g) && g != [] && g[0].weight >= 0.0 && n >= 1
    ensures Deduction(g, n) <= Deduction(h, n)
  {
    MeanNonNegative(g);
    MeanWorse(g, h);
    DamagedWorse(g, h);
    DensityNonNegative(g, n);
    assert Density(g, n) == Density(h, n);
    hide MeanSeverity, Density, Points;
    Product(g[0].weight, MeanSeverity(g), Density(g, n), g[0].weight, MeanSeverity(h), Density(g, n));
  }

  lemma GroupWeight(ds: seq<Detection>, c: Code)
    requires WeightsNonNegative(ds) && c in Codes(ds)
    ensures Group(ds, c)[0].weight >= 0.0
  {
    GroupMembers(ds, c);
    assert Group(ds, c)[0] in Group(ds, c);
  }

  /** Raising severities never raises the score, before or after clamping and rounding. */
  lemma SeverityMonotone(ds: seq<Detection>, es: seq<Detection>, n: int)
    requires n >= 1 && Worse(ds, es) && AllInRange(ds) && WeightsNonNegative(ds)
    ensures RawScore(es, n) <= RawScore(ds, n)
    ensures Score(es, n) <= Score(ds, n)
    ensures StoredScore(es, n) <= StoredScore(ds, n)
  {
    hide Deduction, Points;
    SameCodes(ds, es);
    forall c | c in Codes(ds)
      ensures Deduction(Group(ds, c), n) <= Deduction(Group(es, c), n)
    {
      GroupWorse(ds, es, c);
      GroupInRange(ds, c);
      GroupWeight(ds, c);
      DeductionWorse(Group(ds, c), Group(es, c), n);
    }
    SumMonotone(Deductions(ds, n), Deductions(es, n));
    Round2Monotone(Score(es, n), Score(ds, n));
  }

  // ---- Spreading the same damage over more images

  function SeverityRank(s: SeverityLevel): nat {
    match s
    case FAIBLE => 0
    case MODERE => 1
    case GRAVE => 2
    case CRITIQUE => 3
  }

  function PriorityRank(p: PriorityLevel): nat {
    match p
    case P4_EXCELLENT => 0
    case P3_SURVEILLANCE => 1
    case P2_PLANIFIE => 2
    case P1_URGENT => 3
    case P0_CRITIQUE => 4
  }

  lemma DeductionNonNegative(g: seq<Detection>, n: int)
    requires AllInRange(g) && g != [] && g[0].weight >= 0.0 && n >= 1
    ensures Deduction(g, n) >= 0.0
  {
    MeanNonNegative(g);
    DensityNonNegative(g, n);
    Product(g[0].weight, MeanSeverity(g), Density(g, n), g[0].weight, MeanSeverity(g), Density(g, n));
  }

  lemma DeductionDiluted(g: seq<Detection>, n: int, m: int)
    requires AllInRange(g) && g != [] && g[0].weight >= 0.0 && 1 <= n <= m
    ensures Deduction(g, m) <= Deduction(g, n)
  {
    MeanNonNegative(g);
    DamagedNonNegative(g);
    Quotient(Damaged(g), n as real, m as real);
    Product(g[0].weight, MeanSeverity(g), Density(g, m), g[0].weight, MeanSeverity(g), Density(g, n));
  }

  lemma RawDiluted(ds: seq<Detection>, n: int, m: int)
    requires 1 <= n <= m && AllInRange(ds) && WeightsNonNegative(ds)
    ensures RawScore(ds, n) <= RawScore(ds, m)
  {
    hide Deduction, Points;
    forall c | c in Codes(ds) ensures Deduction(Group(ds, c), m) <= Deduction(Group(ds, c), n) {
      GroupInRange(ds, c);
      GroupWeight(ds, c);
      DeductionDiluted(Group(ds, c), n, m);
    }
    SumMonotone(Deductions(ds, m), Deductions(ds, n));
  }

  /** More images with the same detections never lower the score and never worsen a band. */
  lemma Dilution(ds: seq<Detection>, n: int, m: int)
    requires 1 <= n <= m && AllInRange(ds) && WeightsNonNegative(ds)
    ensures Score(ds, n) <= Score(ds, m) && StoredScore(ds, n) <= StoredScore(ds, m)
    ensures SeverityRank(ClassifySeverity(Score(ds, m))) <= SeverityRank(ClassifySeverity(Score(ds, n)))
    ensures PriorityRank(ClassifyPriority(Score(ds, m))) <= PriorityRank(ClassifyPriority(Score(ds, n)))
  {
    hide RawScore;
    RawDiluted(ds, n, m);
    Round2Monotone(Score(ds, n), Score(ds, m));
  }

  ghost function Times(c: real): real -> real {
    x => c * x
  }

  lemma TimesDistributes(c: real, x: real, y: real)
    ensures Times(c)(x + y) == Times(c)(x) + Times(c)(y)
  {
    assert c * (x + y) == c * x + c * y;
  }

  lemma TimesAdditive(c: real)
    ensures Additive(Times(c))
  {
    hide Times;
    forall x, y ensures Times(c)(x + y) == Times(c)(x) + Times(c)(y) {
      TimesDistributes(c, x, y);
    }
    TimesDistributes(c, 0.0, 0.0);
  }

  lemma Cancel(w: real, s: real, k: real, n: real, m: real)
    requires n > 0.0 && m > 0.0
    ensures Points(w, s, k / m) == Times(n / m)(Points(w, s, k / n))
  {
    assert n / m * (k / n) == k / m;
    var d := k / n;
    assert n / m * (w * s * d * 100.0) == w * s * (n / m * d) * 100.0;
  }

  lemma Rescaled(g: seq<Detection>, n: int, m: int)
    requires g != [] && n >= 1 && m >= 1
    ensures Deduction(g, m) == Times(n as real / m as real)(Deduction(g, n))
  {
    hide MeanSeverity, Points, Times;
    Cancel(g[0].weight, MeanSeverity(g), Damaged(g), n as real, m as real);
  }

  lemma CrossMultiply(x: real, y: real, n: real, m: real)
    requires m > 0.0 && y == Times(n / m)(x)
    ensures m * y == n * x
  {
    assert m * (n / m * x) == m * (n / m) * x;
  }

  lemma LossRescaled(ds: seq<Detection>, n: int, m: int)
    requires n >= 1 && m >= 1
    ensures PointsLost(ds, m) == Times(n as real / m as real)(PointsLost(ds, n))
  {
    hide Deduction, Times;
    var c := n as real / m as real;
    TimesAdditive(c);
    forall k | k in Codes(ds) ensures Deduction(Group(ds, k), m) == Times(c)(Deduction(Group(ds, k), n)) {
      Rescaled(Group(ds, k), n, m);
    }
    SumAdditive(Deductions(ds, n), Deductions(ds, m), Times(c));
  }

  /** The points lost, times the number of images, do not depend on the number of images. */
  lemma DilutionExact(ds: seq<Detection>, n: int, m: int)
    requires n >= 1 && m >= 1
    ensures m as real * PointsLost(ds, m) == n as real * PointsLost(ds, n)
  {
    hide PointsLost, Times;
    LossRescaled(ds, n, m);
    CrossMultiply(PointsLost(ds, n), PointsLost(ds, m), n as real, m as real);
  }
}

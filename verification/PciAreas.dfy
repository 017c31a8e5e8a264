/**
 Saturation. While no image is covered more than once by the boxes of one type, the mean severity and
 the density cancel, the points lost add up over any split of the detections, and a further box
 never raises the score. Once an image is full this fails, and the module says exactly when.
 */
module PciAreas {
  import opened Rounding
  import opened Sums
  import opened PciEngine
  import opened PciOrder

  // ---- Areas by image

  lemma {:induction false} TallyConcat(a: seq<Detection>, b: seq<Detection>, q: Quantity)
    ensures Tally(a + b, q) == Tally(a, q) + Tally(b, q)
  {
    if b == [] {
      assert a + b == a;
    } else {
      TallyConcat(a, b[..|b| - 1], q);
      assert (a + b)[..|a + b| - 1] == a + b[..|b| - 1];
    }
  }

  lemma GroupLastOf(ds: seq<Detection>, c: Code)
    requires ds != []
    ensures
      var last := ds[|ds| - 1];
      Group(ds, c) == Group(ds[..|ds| - 1], c) + if last.code == c then [last] else []
  {
    hide Codes;
  }

  lemma {:induction false} GroupConcat(a: seq<Detection>, b: seq<Detection>, c: Code)
    ensures Group(a + b, c) == Group(a, c) + Group(b, c)
  {
    hide Codes;
    if b == [] {
      assert a + b == a && Group(b, c) == [];
    } else {
      var front := b[..|b| - 1];
      GroupConcat(a, front, c);
      GroupLastOf(b, c);
      GroupLastOf(a + b, c);
      assert (a + b)[..|a + b| - 1] == a + front;
    }
  }

  ghost function AreaByImage(g: seq<Detection>): map<ImageId, real> {
    map i | i in Images(g) :: Tally(g, AreaOn(i))
  }

  lemma AreaByImageStep(g: seq<Detection>, d: Detection)
    ensures
      AreaByImage(g + [d]) ==
      AreaByImage(g)[d.image := (if d.image in Images(g) then AreaByImage(g)[d.image] else 0.0) + d.area]
  {
    assert Images(g + [d]) == Images(g) + {d.image};
    assert (g + [d])[..|g|] == g;
    if d.image !in Images(g) { TallyAbsent(g, d.image); }
  }

  lemma AreaSumStep(g: seq<Detection>, d: Detection)
    ensures Sum(AreaByImage(g + [d])) == Sum(AreaByImage(g)) + d.area
  {
    hide Tally;
    AreaByImageStep(g, d);
    var m := AreaByImage(g);
    if d.image in m {
      SumReplace(m, d.image, m[d.image] + d.area);
    } else {
      SumAdd(m, d.image, 0.0 + d.area);
    }
  }

  /** Splitting a group by image loses no area. */
  lemma {:induction false} AreaPartition(g: seq<Detection>)
    ensures Sum(AreaByImage(g)) == Tally(g, Area)
  {
    if g == [] {
      assert AreaByImage(g) == map[];
    } else {
      var front, d := g[..|g| - 1], g[|g| - 1];
      AreaPartition(front);
      assert g == front + [d];
      AreaSumStep(front, d);
    }
  }

  /** No image is covered more than once by the boxes of this group. */
  ghost predicate Unsaturated(g: seq<Detection>) {
    forall i :: i in Images(g) ==> Tally(g, AreaOn(i)) <= 1.0
  }

  lemma DamagedUnsaturated(g: seq<Detection>)
    requires Unsaturated(g)
    ensures Damaged(g) == Tally(g, Area)
  {
    assert PerImage(g) == AreaByImage(g);
    AreaPartition(g);
  }

  lemma {:induction false} SeverityAreaBounds(g: seq<Detection>)
    requires AllInRange(g)
    ensures 0.0 <= Tally(g, SeverityArea) <= Tally(g, Area)
  {
    if g != [] {
      SeverityAreaBounds(g[..|g| - 1]);
      var d := g[|g| - 1];
      assert InRange(d);
      Scaled(0.0, d.severity, d.area);
      Scaled(d.severity, 1.0, d.area);
    }
  }

  // ---- Cancellation and additivity

  lemma CancelArea(w: real, s: real, a: real, n: real)
    requires a > 0.0 && n > 0.0
    ensures Points(w, s / a, a / n) == w * (s / n) * 100.0
  {
    assert s / a * (a / n) == s / n;
    assert w * (s / a) * (a / n) == w * (s / a * (a / n));
  }

  lemma MeanOfArea(g: seq<Detection>)
    requires g != [] && Tally(g, Area) > 0.0
    ensures MeanSeverity(g) == Tally(g, SeverityArea) / Tally(g, Area)
  {
  }

  lemma DeductionParts(g: seq<Detection>, n: int)
    requires n >= 1 && g != []
    ensures Deduction(g, n) == Points(g[0].weight, MeanSeverity(g), Damaged(g) / n as real)
  {
    hide MeanSeverity, Points, Damaged;
  }

  lemma NoDamage(g: seq<Detection>, n: int)
    requires n >= 1 && g != [] && Damaged(g) == 0.0
    ensures Deduction(g, n) == 0.0
  {
    hide MeanSeverity, Damaged;
  }

  lemma NoShare(w: real, n: real)
    requires n > 0.0
    ensures w * (0.0 / n) * 100.0 == 0.0
  {
  }

  lemma CancellationPositive(g: seq<Detection>, n: int)
    requires n >= 1 && g != [] && AllInRange(g) && Unsaturated(g) && Tally(g, Area) > 0.0
    ensures Deduction(g, n) == g[0].weight * (Tally(g, SeverityArea) / n as real) * 100.0
  {
    hide *;
    DamagedUnsaturated(g);
    MeanOfArea(g);
    DeductionParts(g, n);
    CancelArea(g[0].weight, Tally(g, SeverityArea), Tally(g, Area), n as real);
  }

  /** Unsaturated, a type costs `100 * weight * sum(severity * area) / images`. */
  lemma Cancellation(g: seq<Detection>, n: int)
    requires n >= 1 && g != [] && AllInRange(g) && Unsaturated(g)
    ensures Deduction(g, n) == g[0].weight * (Tally(g, SeverityArea) / n as real) * 100.0
  {
    hide *;
    DamagedUnsaturated(g);
    SeverityAreaBounds(g);
    if Tally(g, Area) > 0.0 {
      CancellationPositive(g, n);
    } else {
      NoDamage(g, n);
      NoShare(g[0].weight, n as real);
    }
  }

  /** What one type costs in a list, zero when the type is absent. */
  ghost function Cost(ds: seq<Detection>, c: Code, n: int): real
    requires n >= 1
  {
    if c in Codes(ds) then Deduction(Group(ds, c), n) else 0.0
  }

  ghost predicate NeverSaturated(ds: seq<Detection>) {
    forall c :: Unsaturated(Group(ds, c))
  }

  lemma UnsaturatedParts(a: seq<Detection>, b: seq<Detection>)
    requires AllInRange(a) && AllInRange(b) && Unsaturated(a + b)
    ensures Unsaturated(a) && Unsaturated(b)
  {
    forall i ensures Tally(a + b, AreaOn(i)) >= Tally(a, AreaOn(i)) && Tally(a + b, AreaOn(i)) >= Tally(b, AreaOn(i)) {
      TallyConcat(a, b, AreaOn(i));
      TallyNonNegative(a, AreaOn(i));
      TallyNonNegative(b, AreaOn(i));
    }
    assert Images(a + b) == Images(a) + Images(b);
  }

  lemma CostCases(ds: seq<Detection>, c: Code, n: int)
    requires n >= 1
    ensures c in Codes(ds) ==> Cost(ds, c, n) == Deduction(Group(ds, c), n)
    ensures c !in Codes(ds) ==> Cost(ds, c, n) == 0.0 && Tally(Group(ds, c), SeverityArea) == 0.0
  {
    hide Deduction;
  }

  lemma CommonWeight(ds: seq<Detection>, c: Code, w: real)
    requires forall d :: d in ds && d.code == c ==> d.weight == w
    requires Group(ds, c) != []
    ensures Group(ds, c)[0].weight == w
  {
    GroupMembers(ds, c);
    assert Group(ds, c)[0] in Group(ds, c);
  }

  lemma CostUnsaturated(ds: seq<Detection>, c: Code, n: int, w: real)
    requires n >= 1 && AllInRange(ds) && Unsaturated(Group(ds, c))
    requires forall d :: d in ds && d.code == c ==> d.weight == w
    ensures Cost(ds, c, n) == w * (Tally(Group(ds, c), SeverityArea) / n as real) * 100.0
  {
    hide *;
    CostCases(ds, c, n);
    if c in Codes(ds) {
      GroupInRange(ds, c);
      CommonWeight(ds, c, w);
      Cancellation(Group(ds, c), n);
    } else {
      NoShare(w, n as real);
    }
  }

  lemma SplitShare(w: real, x: real, y: real, n: real)
    requires n > 0.0
    ensures w * ((x + y) / n) * 100.0 == w * (x / n) * 100.0 + w * (y / n) * 100.0
  {
    assert (x + y) / n == x / n + y / n;
    assert w * (x / n + y / n) == w * (x / n) + w * (y / n);
  }

  lemma CostAdds(a: seq<Detection>, b: seq<Detection>, c: Code, n: int, w: real)
    requires n >= 1 && AllInRange(a) && AllInRange(b) && AllInRange(a + b)
    requires Unsaturated(Group(a + b, c))
    requires forall d :: d in a + b && d.code == c ==> d.weight == w
    ensures Cost(a + b, c, n) == Cost(a, c, n) + Cost(b, c, n)
  {
    hide *;
    assert forall d :: d in a + b <==> d in a || d in b;
    GroupConcat(a, b, c);
    GroupInRange(a, c);
    GroupInRange(b, c);
    UnsaturatedParts(Group(a, c), Group(b, c));
    TallyConcat(Group(a, c), Group(b, c), SeverityArea);
    CostUnsaturated(a + b, c, n, w);
    CostUnsaturated(a, c, n, w);
    CostUnsaturated(b, c, n, w);
    SplitShare(w, Tally(Group(a, c), SeverityArea), Tally(Group(b, c), SeverityArea), n as real);
  }

  /** The one weight of a type, by the table of damage types. */
  ghost function WeightOf(ds: seq<Detection>, c: Code): (w: real)
    requires WeightByCode(ds)
    ensures forall d :: d in ds && d.code == c ==> d.weight == w
  {
    if d :| d in ds && d.code == c then d.weight else 0.0
  }

  /** Unsaturated, the points lost are additive over any split of the detections. */
  lemma LossAdds(a: seq<Detection>, b: seq<Detection>, n: int)
    requires n >= 1 && AllInRange(a) && AllInRange(b) && WeightByCode(a + b) && NeverSaturated(a + b)
    ensures PointsLost(a + b, n) == PointsLost(a, n) + PointsLost(b, n)
  {
    hide Deduction, Unsaturated, Tally;
    var m := Deductions(a + b, n);
    assert Codes(a + b) == Codes(a) + Codes(b) by {
      assert forall d :: d in a + b <==> d in a || d in b;
    }
    forall c | c in m
      ensures m[c] == Padded(Deductions(a, n), m.Keys)[c] + Padded(Deductions(b, n), m.Keys)[c]
    {
      CostAdds(a, b, c, n, WeightOf(a + b, c));
    }
    SumCombine(m, Deductions(a, n), Deductions(b, n));
  }

  // ---- One more box

  /** How much of its image a new box newly covers. */
  ghost function NewlyCovered(g: seq<Detection>, d: Detection): real {
    Min(1.0, Tally(g, AreaOn(d.image)) + d.area) - Min(1.0, Tally(g, AreaOn(d.image)))
  }

  lemma PerImageLast(g: seq<Detection>, d: Detection)
    requires AllInRange(g) && InRange(d)
    ensures PerImage(g + [d]) ==
      PerImage(g)[d.image := Min(1.0, (if d.image in PerImage(g) then PerImage(g)[d.image] else 0.0) + d.area)]
  {
    hide PerImage, Min;
    var g' := g + [d];
    assert g'[..|g|] == g && g'[..|g| + 1] == g';
    PerImageStep(g', |g|);
  }

  lemma CoveredBefore(g: seq<Detection>, i: ImageId)
    ensures (if i in PerImage(g) then PerImage(g)[i] else 0.0) == Min(1.0, Tally(g, AreaOn(i)))
  {
    if i !in Images(g) { TallyAbsent(g, i); }
  }

  lemma DamagedStep(g: seq<Detection>, d: Detection)
    requires AllInRange(g) && InRange(d)
    ensures Damaged(g + [d]) == Damaged(g) + NewlyCovered(g, d)
    ensures NewlyCovered(g, d) >= 0.0
  {
    hide PerImage, Tally;
    PerImageLast(g, d);
    CoveredBefore(g, d.image);
    var m := PerImage(g);
    CapStep(Tally(g, AreaOn(d.image)), d.area);
    if d.image in m {
      SumReplace(m, d.image, Min(1.0, m[d.image] + d.area));
    } else {
      SumAdd(m, d.image, Min(1.0, 0.0 + d.area));
    }
  }

  /** A further box changes the cost of its own type only. */
  lemma LossStep(ds: seq<Detection>, d: Detection, n: int)
    requires n >= 1
    ensures PointsLost(ds + [d], n) == PointsLost(ds, n) - Cost(ds, d.code, n) + Cost(ds + [d], d.code, n)
  {
    hide Deduction;
    DeductionsStep(ds, d, n);
    var m, v := Deductions(ds, n), Deduction(Group(ds + [d], d.code), n);
    if d.code in m {
      SumReplace(m, d.code, v);
    } else {
      SumAdd(m, d.code, v);
    }
  }

  lemma DeductionsStep(ds: seq<Detection>, d: Detection, n: int)
    requires n >= 1
    ensures d.code in Codes(ds + [d])
    ensures Deductions(ds + [d], n) == Deductions(ds, n)[d.code := Deduction(Group(ds + [d], d.code), n)]
  {
    hide Deduction;
    var ds' := ds + [d];
    assert ds'[..|ds|] == ds && ds'[..|ds| + 1] == ds';
    CodesStep(ds', |ds|);
    forall c | c != d.code ensures Group(ds', c) == Group(ds, c) {
      GroupStep(ds', |ds|, c);
    }
  }

  /**
   A new box lifts the score: its type is present with some area and a positive weight, and what the
   box adds to the damage is less than what it takes off by diluting the mean severity.
   */
  ghost predicate Lifts(g: seq<Detection>, d: Detection) {
    && g != [] && g[0].weight > 0.0 && Tally(g, Area) > 0.0
    && d.severity * d.area * (Damaged(g) + NewlyCovered(g, d))
       < MeanSeverity(g) * (Damaged(g) * d.area - NewlyCovered(g, d) * Tally(g, Area))
  }

  lemma PointsOrder(w: real, m: real, k: real, m': real, k': real, n: real)
    requires w >= 0.0 && n > 0.0
    ensures Points(w, m', k' / n) < Points(w, m, k / n) <==> w > 0.0 && m' * k' < m * k
  {
    var c := w * 100.0 / n;
    PointsFactor(w, m, k, n);
    PointsFactor(w, m', k', n);
    if w > 0.0 {
      assert c > 0.0;
      OrderScaled(m' * k', m * k, c);
    }
  }

  lemma PointsFactor(w: real, m: real, k: real, n: real)
    requires n > 0.0
    ensures Points(w, m, k / n) == m * k * (w * 100.0 / n)
  {
    assert w * m * (k / n) * 100.0 == m * k * (w * 100.0 / n);
  }

  lemma OrderScaled(x: real, y: real, c: real)
    requires c > 0.0
    ensures x * c < y * c <==> x < y
  {
  }

  lemma MeanOrder(s: real, a: real, k: real, sev: real, area: real, delta: real, mean: real)
    requires a > 0.0 && area >= 0.0 && mean * a == s
    ensures (s + sev * area) / (a + area) * (k + delta) < mean * k
       <==> sev * area * (k + delta) < mean * (k * area - delta * a)
  {
    var b := a + area;
    var t := s + sev * area;
    assert t / b * b == t;
    OrderScaled(t / b * (k + delta), mean * k, b);
    assert t / b * (k + delta) * b == t * (k + delta);
    var u := sev * area;
    assert t * (k + delta) == mean * a * k + mean * a * delta + u * (k + delta);
    assert mean * k * b == mean * a * k + mean * k * area;
    assert mean * (k * area - delta * a) == mean * k * area - mean * a * delta;
  }

  lemma TallyLast(g: seq<Detection>, d: Detection)
    ensures Tally(g + [d], Area) == Tally(g, Area) + d.area
    ensures Tally(g + [d], SeverityArea) == Tally(g, SeverityArea) + d.severity * d.area
  {
    assert (g + [d])[..|g|] == g;
  }

  lemma MeanTimesArea(g: seq<Detection>)
    requires g != [] && Tally(g, Area) > 0.0
    ensures MeanSeverity(g) * Tally(g, Area) == Tally(g, SeverityArea)
  {
  }

  lemma LiftsParts(g: seq<Detection>, d: Detection, mean: real, k: real, delta: real, a: real)
    requires g != [] && mean == MeanSeverity(g) && k == Damaged(g) && delta == NewlyCovered(g, d) && a == Tally(g, Area)
    ensures Lifts(g, d) <==>
      g[0].weight > 0.0 && a > 0.0 && d.severity * d.area * (k + delta) < mean * (k * d.area - delta * a)
  {
    hide MeanSeverity, Damaged, NewlyCovered, Tally;
  }

  lemma DeductionDrops(g: seq<Detection>, d: Detection, n: int)
    requires n >= 1 && g != [] && AllInRange(g) && InRange(d) && g[0].weight >= 0.0 && d.area >= 0.0
    requires Tally(g, Area) > 0.0
    ensures Deduction(g + [d], n) < Deduction(g, n) <==> Lifts(g, d)
  {
    hide *;
    var g' := g + [d];
    var a, s, k, delta := Tally(g, Area), Tally(g, SeverityArea), Damaged(g), NewlyCovered(g, d);
    var mean := MeanSeverity(g);
    DamagedStep(g, d);
    TallyLast(g, d);
    MeanOfArea(g');
    MeanTimesArea(g);
    DeductionParts(g, n);
    DeductionParts(g', n);
    LiftsParts(g, d, mean, k, delta, a);
    PointsOrder(g[0].weight, mean, k, MeanSeverity(g'), k + delta, n as real);
    MeanOrder(s, a, k, d.severity, d.area, delta, mean);
  }

  lemma ZeroAreaDamage(g: seq<Detection>)
    requires AllInRange(g) && Tally(g, Area) <= 0.0
    ensures Damaged(g) == 0.0
  {
    DamagedNonNegative(g);
    AreaPartition(g);
    SumMonotone(PerImage(g), AreaByImage(g));
  }

  lemma GroupLast(ds: seq<Detection>, d: Detection)
    requires AllInRange(ds) && InRange(d) && WeightsNonNegative(ds) && d.weight >= 0.0
    ensures d.code in Codes(ds + [d]) && Group(ds + [d], d.code) == Group(ds, d.code) + [d]
    ensures AllInRange(ds + [d]) && WeightsNonNegative(ds + [d]) && d.area >= 0.0
  {
    var ds' := ds + [d];
    assert ds'[..|ds|] == ds && ds'[..|ds| + 1] == ds';
    GroupStep(ds', |ds|, d.code);
    CodesStep(ds', |ds|);
  }

  lemma LiftsNeeds(g: seq<Detection>, d: Detection)
    requires Lifts(g, d)
    ensures g != [] && Tally(g, Area) > 0.0
  {
  }

  lemma CostDrops(ds: seq<Detection>, d: Detection, n: int)
    requires n >= 1 && AllInRange(ds) && InRange(d) && WeightsNonNegative(ds) && d.weight >= 0.0
    ensures Cost(ds + [d], d.code, n) < Cost(ds, d.code, n) <==> Lifts(Group(ds, d.code), d)
  {
    hide *;
    var g := Group(ds, d.code);
    GroupLast(ds, d);
    CostCases(ds, d.code, n);
    CostCases(ds + [d], d.code, n);
    GroupInRange(ds, d.code);
    GroupInRange(ds + [d], d.code);
    GroupWeight(ds + [d], d.code);
    DeductionNonNegative(g + [d], n);
    if Lifts(g, d) { LiftsNeeds(g, d); }
    if d.code in Codes(ds) {
      if Tally(g, Area) > 0.0 {
        DeductionDrops(g, d, n);
      } else {
        ZeroAreaDamage(g);
        NoDamage(g, n);
      }
    }
  }

  /** A further detection raises the unclamped score exactly when `Lifts` holds of its type. */
  lemma OneMoreBox(ds: seq<Detection>, d: Detection, n: int)
    requires n >= 1 && AllInRange(ds) && InRange(d) && WeightsNonNegative(ds) && d.weight >= 0.0
    ensures RawScore(ds + [d], n) > RawScore(ds, n) <==> Lifts(Group(ds, d.code), d)
    ensures !Lifts(Group(ds, d.code), d) ==> StoredScore(ds + [d], n) <= StoredScore(ds, n)
  {
    hide Cost, Lifts, PointsLost;
    LossStep(ds, d, n);
    CostDrops(ds, d, n);
    if Score(ds + [d], n) <= Score(ds, n) {
      Round2Monotone(Score(ds + [d], n), Score(ds, n));
    }
  }

  /** While the type stays unsaturated, a further box never raises the score. */
  lemma UnsaturatedNeverLifts(g: seq<Detection>, d: Detection)
    requires AllInRange(g) && InRange(d) && Unsaturated(g + [d])
    ensures !Lifts(g, d)
  {
    hide *;
    if g != [] {
      var a := Tally(g, Area);
      UnsaturatedSplit(g, d);
      DamagedUnsaturated(g);
      DamagedUnsaturated(g + [d]);
      DamagedStep(g, d);
      TallyLast(g, d);
      TallyNonNegative(g, Area);
      LiftsParts(g, d, MeanSeverity(g), a, d.area, a);
      ThreeFactors(d.severity, d.area, a + d.area);
      NoSlack(MeanSeverity(g), a, d.area);
    } else {
      if Lifts(g, d) { LiftsNeeds(g, d); }
    }
  }

  lemma UnsaturatedSplit(g: seq<Detection>, d: Detection)
    requires AllInRange(g) && InRange(d) && Unsaturated(g + [d])
    ensures Unsaturated(g) && d.severity >= 0.0 && d.area >= 0.0
  {
    UnsaturatedParts(g, [d]);
  }

  lemma NoSlack(mean: real, a: real, area: real)
    ensures mean * (a * area - area * a) == 0.0
  {
  }

  lemma ThreeFactors(x: real, y: real, z: real)
    requires x >= 0.0 && y >= 0.0 && z >= 0.0
    ensures x * y * z >= 0.0
  {
    Scaled(0.0, x, y);
    Scaled(0.0, x * y, z);
  }

  lemma SaturatedOrder(sev: real, area: real, k: real, mean: real, delta: real, a: real)
    requires area >= 0.0 && k > 0.0 && delta == 0.0
    ensures sev * area * (k + delta) < mean * (k * area - delta * a) <==> area > 0.0 && sev < mean
  {
    var c := area * k;
    assert sev * area * (k + delta) == sev * c;
    assert mean * (k * area - delta * a) == mean * c;
    if area > 0.0 {
      OrderScaled(0.0, area, k);
      OrderScaled(sev, mean, c);
    }
  }

  lemma NothingNew(g: seq<Detection>, d: Detection)
    requires InRange(d) && Tally(g, AreaOn(d.image)) >= 1.0
    ensures NewlyCovered(g, d) == 0.0 && d.area >= 0.0
  {
  }

  /** On an image the type already covers, a box raises the score exactly when it is milder than the mean. */
  lemma SaturatedLifts(g: seq<Detection>, d: Detection)
    requires AllInRange(g) && InRange(d) && g != [] && Tally(g, AreaOn(d.image)) >= 1.0
    ensures Lifts(g, d) <==> g[0].weight > 0.0 && d.area > 0.0 && d.severity < MeanSeverity(g)
  {
    hide *;
    NothingNew(g, d);
    CoveredImage(g, d.image);
    LiftsParts(g, d, MeanSeverity(g), Damaged(g), NewlyCovered(g, d), Tally(g, Area));
    SaturatedOrder(d.severity, d.area, Damaged(g), MeanSeverity(g), NewlyCovered(g, d), Tally(g, Area));
  }

  lemma CoveredImage(g: seq<Detection>, i: ImageId)
    requires AllInRange(g) && Tally(g, AreaOn(i)) >= 1.0
    ensures Damaged(g) >= 1.0 && Tally(g, Area) >= 1.0
  {
    if i !in Images(g) { TallyAbsent(g, i); }
    var m := PerImage(g);
    forall k | k in m ensures m[k] >= 0.0 { TallyNonNegative(g, AreaOn(k)); }
    SumExtract(m, i);
    SumNonNegative(m - {i});
    AreaPartition(g);
    SumMonotone(m, AreaByImage(g));
  }
}

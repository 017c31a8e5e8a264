/** The seeded rule base (03_seed_rules.sql) as a constant, and what it decides. */
module SeedRules {
  import opened Wrappers
  import opened Ordering
  import opened PciEngine
  import opened RuleEngine

  const STRUCTURAL: seq<string> := ["POTHOLE", "ALLIGATOR_CRACK", "RUTTING"]
  const SURFACE: seq<string> := ["RAVELLING", "RUTTING"]
  const CRACKS: seq<string> := ["LONGITUDINAL_CRACK", "LATERAL_CRACK", "EDGE_CRACKING", "ALLIGATOR_CRACK"]
  const EARLY_CRACKS: seq<string> := ["LONGITUDINAL_CRACK", "LATERAL_CRACK", "EDGE_CRACKING"]

  function Band(
    code: string, name: string, lo: Option<real>, hi: Option<real>, dominant: Option<seq<string>>, least: Option<int>,
    strategy: string, days: int, deadline: int, cost: Option<(real, real)>, priority: int): Rule
  {
    Rule(code, name,
      Parsed(Condition(lo, hi, None, None, dominant, least)),
      Parsed(Action(Some(strategy), Some(days), Some(deadline),
        if cost.Some? then Some(cost.value.0) else None, if cost.Some? then Some(cost.value.1) else None)),
      priority, true)
  }

  const SEEDS: seq<Rule> := [
    Band("R010_CRITIQUE_RECONSTRUCTION", "Reconstruction — section critique",
      None, Some(40.0), None, None, "RECONSTRUCTION", 90, 30, Some((1500000.0, 4000000.0)), 10),
    Band("R020_GRAVE_STRUCTUREL_REHABILITATION", "Réhabilitation — dégradations structurelles dominantes",
      Some(40.0), Some(55.0), Some(STRUCTURAL), None, "REHABILITATION", 45, 60, Some((400000.0, 1200000.0)), 20),
    Band("R021_GRAVE_DEFAUT_RESURFACAGE", "Resurfaçage — état grave, dégradations de surface",
      Some(40.0), Some(55.0), None, None, "RESURFACAGE", 30, 90, Some((250000.0, 700000.0)), 25),
    Band("R030_MODERE_SURFACE_RESURFACAGE", "Resurfaçage — usure de surface dominante",
      Some(55.0), Some(70.0), Some(SURFACE), None, "RESURFACAGE", 21, 180, Some((150000.0, 450000.0)), 30),
    Band("R031_MODERE_FISSURES_COLMATAGE", "Colmatage — fissuration dominante, état modéré",
      Some(55.0), Some(70.0), Some(CRACKS), None, "COLMATAGE", 10, 120, Some((60000.0, 180000.0)), 35),
    Band("R032_MODERE_DEFAUT_COLMATAGE", "Colmatage — état modéré (règle générale)",
      Some(55.0), Some(70.0), None, None, "COLMATAGE", 10, 180, Some((50000.0, 150000.0)), 39),
    Band("R040_BON_FISSURES_COLMATAGE_PREVENTIF", "Colmatage préventif — fissuration naissante",
      Some(70.0), Some(85.0), Some(EARLY_CRACKS), Some(1), "COLMATAGE", 5, 365, Some((20000.0, 80000.0)), 40),
    Band("R041_BON_SURVEILLANCE", "Surveillance renforcée — bon état",
      Some(70.0), Some(85.0), None, None, "SURVEILLANCE", 1, 365, None, 45),
    Band("R050_EXCELLENT_SURVEILLANCE", "Surveillance de routine — excellent état",
      Some(85.0), None, None, None, "SURVEILLANCE", 1, 730, None, 50)
  ]

  predicate DominatedBy(ctx: Context, types: seq<string>) {
    ctx.dominant.Some? && ctx.dominant.value in types
  }

  /** The index of the deciding seed, read off the table. */
  function SeedFor(ctx: Context): (k: nat)
    ensures k < 9
  {
    if ctx.pci < 40.0 then 0
    else if ctx.pci < 55.0 then if DominatedBy(ctx, STRUCTURAL) then 1 else 2
    else if ctx.pci < 70.0 then
      if DominatedBy(ctx, SURFACE) then 3 else if DominatedBy(ctx, CRACKS) then 4 else 5
    else if ctx.pci < 85.0 then
      if DominatedBy(ctx, EARLY_CRACKS) && ctx.detections >= 1 then 6 else 7
    else 8
  }

  /** The condition of a seed, field by field. */
  predicate SeedMatches(k: nat, ctx: Context)
    requires k < 9
  {
    if k == 0 then ctx.pci < 40.0
    else if k == 1 then 40.0 <= ctx.pci < 55.0 && DominatedBy(ctx, STRUCTURAL)
    else if k == 2 then 40.0 <= ctx.pci < 55.0
    else if k == 3 then 55.0 <= ctx.pci < 70.0 && DominatedBy(ctx, SURFACE)
    else if k == 4 then 55.0 <= ctx.pci < 70.0 && DominatedBy(ctx, CRACKS)
    else if k == 5 then 55.0 <= ctx.pci < 70.0
    else if k == 6 then 70.0 <= ctx.pci < 85.0 && DominatedBy(ctx, EARLY_CRACKS) && ctx.detections >= 1
    else if k == 7 then 70.0 <= ctx.pci < 85.0
    else ctx.pci >= 85.0
  }

  lemma SeedStops(k: nat, ctx: Context)
    requires k < 9
    ensures |SEEDS| == 9 && SEEDS[k].active && (Stops(SEEDS[k], ctx) <==> SeedMatches(k, ctx))
  {
  }

  lemma SeedsIncrease(j: nat, k: nat)
    requires j < k < 9
    ensures |SEEDS| == 9 && SEEDS[j].priority < SEEDS[k].priority
  {
  }

  lemma SeedWins(ctx: Context)
    ensures IsWinner(SEEDS, SeedFor(ctx), ctx)
  {
    hide Stops;
    var i := SeedFor(ctx);
    SeedStops(i, ctx);
    forall j | 0 <= j < |SEEDS| && SEEDS[j].active && Stops(SEEDS[j], ctx)
      ensures KeyLe(SEEDS[i], SEEDS[j]) && (KeyLe(SEEDS[j], SEEDS[i]) ==> i <= j)
    {
      SeedStops(j, ctx);
      assert i <= j;
      if i < j {
        SeedsIncrease(i, j);
      } else {
        StringTotal(SEEDS[i].code, SEEDS[i].code);
      }
    }
  }

  /** Strategies from the lightest to the heaviest. */
  function Heaviness(s: Strategy): nat {
    match s
    case SURVEILLANCE => 0
    case COLMATAGE => 1
    case RESURFACAGE => 2
    case REHABILITATION => 3
    case RECONSTRUCTION => 4
  }

  /** The seeded bands of the score, 0 the best. */
  function BandOf(pci: real): nat {
    if pci >= 85.0 then 0 else if pci >= 70.0 then 1 else if pci >= 55.0 then 2 else if pci >= 40.0 then 3 else 4
  }

  /** What each seed decides: the weight of its strategy and its deadline. */
  lemma SeedVerdict(k: nat)
    requires k < 9
    ensures |SEEDS| == 9 && Verdict(SEEDS[k]).Ok?
    ensures Verdict(SEEDS[k]).value.deadlineDays.Some? && Verdict(SEEDS[k]).value.ruleCode == SEEDS[k].code != "FALLBACK"
    ensures Heaviness(Verdict(SEEDS[k]).value.strategy) == [4, 3, 2, 2, 1, 1, 1, 0, 0][k]
    ensures Verdict(SEEDS[k]).value.deadlineDays.value == [30, 60, 90, 180, 120, 180, 365, 365, 730][k]
  {
  }

  const SEED_CODES: seq<string> := [
    "R010_CRITIQUE_RECONSTRUCTION", "R020_GRAVE_STRUCTUREL_REHABILITATION", "R021_GRAVE_DEFAUT_RESURFACAGE",
    "R030_MODERE_SURFACE_RESURFACAGE", "R031_MODERE_FISSURES_COLMATAGE", "R032_MODERE_DEFAUT_COLMATAGE",
    "R040_BON_FISSURES_COLMATAGE_PREVENTIF", "R041_BON_SURVEILLANCE", "R050_EXCELLENT_SURVEILLANCE"]

  const SEED_NAMES: seq<string> := [
    "Reconstruction — section critique", "Réhabilitation — dégradations structurelles dominantes",
    "Resurfaçage — état grave, dégradations de surface", "Resurfaçage — usure de surface dominante",
    "Colmatage — fissuration dominante, état modéré", "Colmatage — état modéré (règle générale)",
    "Colmatage préventif — fissuration naissante", "Surveillance renforcée — bon état",
    "Surveillance de routine — excellent état"]

  /** The remaining fields each seed decides: code and name, days, and the bounds of the cost. */
  lemma SeedFields(k: nat)
    requires k < 9
    ensures |SEEDS| == |SEED_CODES| == |SEED_NAMES| == 9 && Verdict(SEEDS[k]).Ok?
    ensures
      var d := Verdict(SEEDS[k]).value;
      && d.ruleCode == SEED_CODES[k] && d.ruleName == SEED_NAMES[k]
      && d.estimatedDays == Some([90, 45, 30, 21, 10, 10, 5, 1, 1][k])
      && (k < 7 ==>
            && d.costMin == Some([1500000.0, 400000.0, 250000.0, 150000.0, 60000.0, 50000.0, 20000.0][k])
            && d.costMax == Some([4000000.0, 1200000.0, 700000.0, 450000.0, 180000.0, 150000.0, 80000.0][k]))
      && (k >= 7 ==> d.costMin.None? && d.costMax.None?)
  {
  }

  /** The decision of the seeded base on any context, in all its fields. */
  lemma SeedDecides(ctx: Context)
    ensures Evaluate(SEEDS, ctx).Ok?
    ensures
      var k, d := SeedFor(ctx), Evaluate(SEEDS, ctx).value;
      && k < 9 && |SEED_CODES| == |SEED_NAMES| == 9
      && d.ruleCode == SEED_CODES[k] && d.ruleName == SEED_NAMES[k]
      && Heaviness(d.strategy) == [4, 3, 2, 2, 1, 1, 1, 0, 0][k]
      && d.deadlineDays == Some([30, 60, 90, 180, 120, 180, 365, 365, 730][k])
      && d.estimatedDays == Some([90, 45, 30, 21, 10, 10, 5, 1, 1][k])
      && (k < 7 ==>
            && d.costMin == Some([1500000.0, 400000.0, 250000.0, 150000.0, 60000.0, 50000.0, 20000.0][k])
            && d.costMax == Some([4000000.0, 1200000.0, 700000.0, 450000.0, 180000.0, 150000.0, 80000.0][k]))
      && (k >= 7 ==> d.costMin.None? && d.costMax.None?)
  {
    hide Verdict, Evaluate, SEEDS, SEED_CODES, SEED_NAMES;
    SeedsTotal(ctx);
    SeedVerdict(SeedFor(ctx));
    SeedFields(SeedFor(ctx));
  }

  /** The seeded base decides every context by a rule of its own, never by the fallback. */
  lemma SeedsTotal(ctx: Context)
    ensures Evaluate(SEEDS, ctx).Ok?
    ensures Evaluate(SEEDS, ctx) == Verdict(SEEDS[SeedFor(ctx)])
    ensures Evaluate(SEEDS, ctx).value.ruleCode != "FALLBACK" && Evaluate(SEEDS, ctx).value.deadlineDays.Some?
  {
    hide Verdict, Evaluate, IsWinner;
    SeedWins(ctx);
    WinnerDecides(SEEDS, ctx);
    SeedVerdict(SeedFor(ctx));
  }

  /**
   A context in a worse band gets a strategy at least as heavy and a strictly shorter deadline, whatever
   the dominant types and the numbers of detections are.
   */
  lemma SeedsOrdered(worse: Context, better: Context)
    requires BandOf(worse.pci) > BandOf(better.pci)
    ensures Evaluate(SEEDS, worse).Ok? && Evaluate(SEEDS, better).Ok?
    ensures
      var w, b := Evaluate(SEEDS, worse).value, Evaluate(SEEDS, better).value;
      && Heaviness(w.strategy) >= Heaviness(b.strategy)
      && w.deadlineDays.Some? && b.deadlineDays.Some? && w.deadlineDays.value < b.deadlineDays.value
  {
    hide Verdict, Evaluate, DominatedBy;
    SeedsTotal(worse);
    SeedsTotal(better);
    SeedVerdict(SeedFor(worse));
    SeedVerdict(SeedFor(better));
  }

  /** The dominant type (and for the best of these bands a detection) selects the first rule of the band. */
  predicate SpecialRule(ctx: Context) {
    || (BandOf(ctx.pci) == 3 && DominatedBy(ctx, STRUCTURAL))
    || (BandOf(ctx.pci) == 2 && DominatedBy(ctx, SURFACE))
    || (BandOf(ctx.pci) == 1 && DominatedBy(ctx, EARLY_CRACKS) && ctx.detections >= 1)
  }

  /** The shorter deadline of a band: below 55 for structural damage, below 70 for cracks (RUTTING and RAVELLING come first). */
  predicate ShortDeadline(ctx: Context) {
    || (BandOf(ctx.pci) == 3 && DominatedBy(ctx, STRUCTURAL))
    || (BandOf(ctx.pci) == 2 && DominatedBy(ctx, CRACKS) && !DominatedBy(ctx, SURFACE))
  }

  /**
   When the score is no better, the strategy is lighter exactly when the band is the same and the dominant
   type selects the special rule of the band for the better score only; and the deadline is later exactly when
   the band is the same and only the better score has the short deadline of the band.
   */
  lemma LighterExactly(worse: Context, better: Context)
    requires BandOf(worse.pci) >= BandOf(better.pci)
    ensures Evaluate(SEEDS, worse).Ok? && Evaluate(SEEDS, better).Ok?
    ensures
      (Heaviness(Evaluate(SEEDS, worse).value.strategy) < Heaviness(Evaluate(SEEDS, better).value.strategy))
        <==> (BandOf(worse.pci) == BandOf(better.pci) && SpecialRule(better) && !SpecialRule(worse))
    ensures
      var w, b := Evaluate(SEEDS, worse).value.deadlineDays, Evaluate(SEEDS, better).value.deadlineDays;
      && w.Some? && b.Some?
      && ((w.value > b.value)
            <==> (BandOf(worse.pci) == BandOf(better.pci) && ShortDeadline(better) && !ShortDeadline(worse)))
  {
    hide Verdict, Evaluate, DominatedBy;
    SeedsTotal(worse);
    SeedsTotal(better);
    SeedVerdict(SeedFor(worse));
    SeedVerdict(SeedFor(better));
  }

  /** The two conditions differ: in one band, heavier work on 56 points is due later than lighter work on 69. */
  lemma HeavierYetLater()
    ensures
      var worse := Context(56.0, MODERE, P2_PLANIFIE, Some("RAVELLING"), 1);
      var better := Context(69.0, MODERE, P2_PLANIFIE, Some("LONGITUDINAL_CRACK"), 1);
      var x, y := Evaluate(SEEDS, worse), Evaluate(SEEDS, better);
      && x.Ok? && y.Ok? && Heaviness(x.value.strategy) > Heaviness(y.value.strategy)
      && x.value.deadlineDays == Some(180) && y.value.deadlineDays == Some(120)
  {
    hide Verdict, Evaluate;
    var worse := Context(56.0, MODERE, P2_PLANIFIE, Some("RAVELLING"), 1);
    var better := Context(69.0, MODERE, P2_PLANIFIE, Some("LONGITUDINAL_CRACK"), 1);
    assert SURFACE[0] == "RAVELLING" && CRACKS[0] == "LONGITUDINAL_CRACK";
    assert "RAVELLING"[0] == 'R' && "RUTTING"[0] == 'R' && "LONGITUDINAL_CRACK"[0] == 'L';
    SeedsTotal(worse);
    SeedsTotal(better);
    SeedVerdict(3);
    SeedVerdict(4);
  }
}

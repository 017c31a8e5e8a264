/**
 Rules may ask for the recorded level or for a range of the stored score. The level is taken before rounding
 and the score is stored after it, so the two ways of writing a rule agree except just below a threshold.
 */
module LevelRules {
  import opened Wrappers
  import opened Rounding
  import opened PciEngine
  import opened PciBounds
  import opened RuleEngine

  const ANYTHING := Condition(None, None, None, None, None, None)

  /** The names of the k worst severities, and the score they lie below. */
  function WorstSeverities(k: nat): seq<string> {
    ["CRITIQUE", "GRAVE", "MODERE"][..if k < 3 then k else 3]
  }

  function SeverityCeiling(k: nat): int {
    if k <= 1 then 40 else if k == 2 then 55 else 70
  }

  function WorstPriorities(k: nat): seq<string> {
    ["P0_CRITIQUE", "P1_URGENT", "P2_PLANIFIE", "P3_SURVEILLANCE"][..if k < 4 then k else 4]
  }

  function PriorityCeiling(k: nat): int {
    if k <= 1 then 40 else if k == 2 then 55 else if k == 3 then 70 else 85
  }

  function Below(t: int): Condition {
    ANYTHING.(pciMax := Some(t as real))
  }

  lemma SeverityNamesApart(s: SeverityLevel, k: nat)
    requires 1 <= k <= 3
    ensures SeverityName(s) in WorstSeverities(k) <==>
      s == CRITIQUE || (k >= 2 && s == GRAVE) || (k >= 3 && s == MODERE)
  {
    var all := ["CRITIQUE", "GRAVE", "MODERE"];
    assert all[0][0] == 'C' && all[1][0] == 'G' && all[2][0] == 'M' && "FAIBLE"[0] == 'F';
    assert WorstSeverities(k)[0] == all[0];
    if k >= 2 { assert WorstSeverities(k)[1] == all[1]; }
    if k >= 3 { assert WorstSeverities(k)[2] == all[2]; }
  }

  lemma PriorityNamesApart(p: PriorityLevel, k: nat)
    requires 1 <= k <= 4
    ensures PriorityName(p) in WorstPriorities(k) <==>
      p == P0_CRITIQUE || (k >= 2 && p == P1_URGENT) || (k >= 3 && p == P2_PLANIFIE) || (k >= 4 && p == P3_SURVEILLANCE)
  {
    var all := ["P0_CRITIQUE", "P1_URGENT", "P2_PLANIFIE", "P3_SURVEILLANCE"];
    assert all[0][1] == '0' && all[1][1] == '1' && all[2][1] == '2' && all[3][1] == '3' && "P4_EXCELLENT"[1] == '4';
    assert WorstPriorities(k)[0] == all[0];
    if k >= 2 { assert WorstPriorities(k)[1] == all[1]; }
    if k >= 3 { assert WorstPriorities(k)[2] == all[2]; }
    if k >= 4 { assert WorstPriorities(k)[3] == all[3]; }
  }

  /** The facts of a run whose unrounded score is x. */
  predicate ScoredBy(ctx: Context, x: real) {
    x >= 0.0 && ctx.pci == Round2(x) && ctx.severity == ClassifySeverity(x) && ctx.priority == ClassifyPriority(x)
  }

  /** A rule on the k worst severities fires when the rule on the score does, and also just below the threshold. */
  lemma SeverityAgainstScore(ctx: Context, x: real, k: nat)
    requires ScoredBy(ctx, x) && 1 <= k <= 3
    ensures Matches(ANYTHING.(severityIn := Some(WorstSeverities(k))), ctx)
       <==> Matches(Below(SeverityCeiling(k)), ctx) || JustBelow(x, SeverityCeiling(k))
  {
    hide Round2, WorstSeverities, SeverityName;
    SeverityNamesApart(ctx.severity, k);
    Round2Reaches(x, SeverityCeiling(k));
  }

  lemma PriorityAgainstScore(ctx: Context, x: real, k: nat)
    requires ScoredBy(ctx, x) && 1 <= k <= 4
    ensures Matches(ANYTHING.(priorityIn := Some(WorstPriorities(k))), ctx)
       <==> Matches(Below(PriorityCeiling(k)), ctx) || JustBelow(x, PriorityCeiling(k))
  {
    hide Round2, WorstPriorities, PriorityName;
    PriorityNamesApart(ctx.priority, k);
    Round2Reaches(x, PriorityCeiling(k));
  }
}

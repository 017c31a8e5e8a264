/**
 Selection of a maintenance strategy (rule_engine.py): active rules in the order of (priority, code),
 the first match decides, a malformed rule met on the way is an error, and a fallback closes the list.
 */
module RuleEngine {
  import opened Wrappers
  import opened Ordering
  import opened PciEngine

  /** JSON text of a rule: unreadable, or an object. */
  datatype Parsed<+T> = Malformed | Parsed(value: T)

  datatype Condition = Condition(
    pciMin: Option<real>, pciMax: Option<real>,
    severityIn: Option<seq<string>>, priorityIn: Option<seq<string>>,
    dominantIn: Option<seq<string>>, minDetections: Option<int>)

  datatype Action = Action(
    strategy: Option<string>, estimatedDays: Option<int>, deadlineDays: Option<int>,
    costMin: Option<real>, costMax: Option<real>)

  datatype Rule = Rule(
    code: string, name: string, condition: Parsed<Condition>, action: Parsed<Action>,
    priority: int, active: bool)

  datatype Context = Context(
    pci: real, severity: SeverityLevel, priority: PriorityLevel, dominant: Option<Code>, detections: int)

  datatype Strategy = SURVEILLANCE | COLMATAGE | RESURFACAGE | REHABILITATION | RECONSTRUCTION

  datatype Decision = Decision(
    strategy: Strategy, ruleCode: string, ruleName: string,
    estimatedDays: Option<int>, deadlineDays: Option<int>, costMin: Option<real>, costMax: Option<real>)

  /** RuleFormatError, with the rule and the part at fault. */
  datatype RuleError = BadCondition(code: string) | BadAction(code: string) | BadStrategy(code: string)

  function SeverityName(s: SeverityLevel): string {
    match s
    case FAIBLE => "FAIBLE"
    case MODERE => "MODERE"
    case GRAVE => "GRAVE"
    case CRITIQUE => "CRITIQUE"
  }

  function PriorityName(p: PriorityLevel): string {
    match p
    case P4_EXCELLENT => "P4_EXCELLENT"
    case P3_SURVEILLANCE => "P3_SURVEILLANCE"
    case P2_PLANIFIE => "P2_PLANIFIE"
    case P1_URGENT => "P1_URGENT"
    case P0_CRITIQUE => "P0_CRITIQUE"
  }

  function StrategyNamed(name: string): Option<Strategy> {
    if name == "SURVEILLANCE" then Some(SURVEILLANCE)
    else if name == "COLMATAGE" then Some(COLMATAGE)
    else if name == "RESURFACAGE" then Some(RESURFACAGE)
    else if name == "REHABILITATION" then Some(REHABILITATION)
    else if name == "RECONSTRUCTION" then Some(RECONSTRUCTION)
    else None
  }

  /** Every field present must hold; an absent field holds of anything. */
  predicate Matches(cond: Condition, ctx: Context) {
    && (cond.pciMin.Some? ==> ctx.pci >= cond.pciMin.value)
    && (cond.pciMax.Some? ==> ctx.pci < cond.pciMax.value)
    && (cond.severityIn.Some? ==> SeverityName(ctx.severity) in cond.severityIn.value)
    && (cond.priorityIn.Some? ==> PriorityName(ctx.priority) in cond.priorityIn.value)
    && (cond.dominantIn.Some? ==> ctx.dominant.Some? && ctx.dominant.value in cond.dominantIn.value)
    && (cond.minDetections.Some? ==> ctx.detections >= cond.minDetections.value)
  }

  const FALLBACK := Decision(SURVEILLANCE, "FALLBACK", "Surveillance par défaut", None, None, None, None)

  /** The order of evaluation: priority, then code. */
  predicate KeyLe(r: Rule, s: Rule) {
    r.priority < s.priority || (r.priority == s.priority && StringLe(r.code, s.code))
  }

  function Active(rules: seq<Rule>): seq<Rule> {
    if rules == [] then []
    else (if rules[0].active then [rules[0]] else []) + Active(rules[1..])
  }

  /** What a rule that matched decides. */
  function Apply(rule: Rule): Result<Decision, RuleError> {
    if rule.action.Malformed? then Err(BadAction(rule.code))
    else
      var a := rule.action.value;
      if a.strategy.None? || StrategyNamed(a.strategy.value).None? then Err(BadStrategy(rule.code))
      else Ok(Decision(StrategyNamed(a.strategy.value).value, rule.code, rule.name,
                       a.estimatedDays, a.deadlineDays, a.costMin, a.costMax))
  }

  function Scan(ordered: seq<Rule>, ctx: Context): Result<Decision, RuleError> {
    if ordered == [] then Ok(FALLBACK)
    else if ordered[0].condition.Malformed? then Err(BadCondition(ordered[0].code))
    else if !Matches(ordered[0].condition.value, ctx) then Scan(ordered[1..], ctx)
    else Apply(ordered[0])
  }

  function Evaluate(rules: seq<Rule>, ctx: Context): Result<Decision, RuleError> {
    Scan(Sort(Active(rules), KeyLe), ctx)
  }

  // ---- Which rule decides, without sorting

  /** The scan stops at a rule that cannot be read or that matches. */
  predicate Stops(rule: Rule, ctx: Context) {
    rule.condition.Malformed? || Matches(rule.condition.value, ctx)
  }

  function Verdict(rule: Rule): Result<Decision, RuleError> {
    if rule.condition.Malformed? then Err(BadCondition(rule.code)) else Apply(rule)
  }

  /** Among equal keys the sort keeps the order of the input. */
  ghost predicate IsWinner(rules: seq<Rule>, i: nat, ctx: Context) {
    && i < |rules| && rules[i].active && Stops(rules[i], ctx)
    && forall j :: 0 <= j < |rules| && rules[j].active && Stops(rules[j], ctx) ==>
         KeyLe(rules[i], rules[j]) && (KeyLe(rules[j], rules[i]) ==> i <= j)
  }

  ghost predicate NoneStops(rules: seq<Rule>, ctx: Context) {
    forall j :: 0 <= j < |rules| ==> !(rules[j].active && Stops(rules[j], ctx))
  }

  lemma KeyOrder()
    ensures TotalPreorder(KeyLe)
  {
    StringOrder();
    forall x, y ensures KeyLe(x, y) || KeyLe(y, x) {
      StringTotal(x.code, y.code);
    }
    forall x, y, z | KeyLe(x, y) && KeyLe(y, z) ensures KeyLe(x, z) {
      if x.priority == y.priority == z.priority { StringTransitive(x.code, y.code, z.code); }
    }
  }

  function FirstStop(s: seq<Rule>, ctx: Context): Option<Rule> {
    if s == [] then None
    else if Stops(s[0], ctx) then Some(s[0])
    else FirstStop(s[1..], ctx)
  }

  lemma {:induction false} ScanFirstStop(s: seq<Rule>, ctx: Context)
    ensures Scan(s, ctx) == match FirstStop(s, ctx) case None => Ok(FALLBACK) case Some(r) => Verdict(r)
  {
    if s != [] {
      ScanFirstStop(s[1..], ctx);
    }
  }

  lemma {:induction false} FirstStopMember(s: seq<Rule>, ctx: Context)
    requires FirstStop(s, ctx).Some?
    ensures FirstStop(s, ctx).value in s
  {
    if !Stops(s[0], ctx) {
      FirstStopMember(s[1..], ctx);
    }
  }

  lemma {:induction false} FirstStopInsert(x: Rule, s: seq<Rule>, ctx: Context)
    requires Sorted(s, KeyLe)
    ensures FirstStop(Insert(x, s, KeyLe), ctx) ==
      if Stops(x, ctx) && (FirstStop(s, ctx).None? || KeyLe(x, FirstStop(s, ctx).value)) then Some(x)
      else FirstStop(s, ctx)
  {
    KeyOrder();
    if s == [] {
      assert [x][1..] == [];
    } else if KeyLe(x, s[0]) {
      assert ([x] + s)[1..] == s;
      if FirstStop(s, ctx).Some? {
        FirstStopMember(s, ctx);
        var k :| 0 <= k < |s| && s[k] == FirstStop(s, ctx).value;
        assert KeyLe(s[0], s[k]) || k == 0;
      }
    } else {
      SortedTail(s, KeyLe);
      FirstStopInsert(x, s[1..], ctx);
      assert ([s[0]] + Insert(x, s[1..], KeyLe))[1..] == Insert(x, s[1..], KeyLe);
    }
  }

  /** The least stopping rule of a list; on equal keys the earlier one. */
  function Best(rules: seq<Rule>, ctx: Context): Option<nat> {
    if rules == [] then None
    else
      var rest := Best(rules[1..], ctx);
      if rules[0].active && Stops(rules[0], ctx)
         && (rest.None? || rest.value >= |rules[1..]| || KeyLe(rules[0], rules[1..][rest.value]))
      then Some(0)
      else if rest.None? then None
      else Some(rest.value + 1)
  }

  lemma {:induction false} BestWins(rules: seq<Rule>, ctx: Context)
    ensures Best(rules, ctx).None? ==> NoneStops(rules, ctx)
    ensures Best(rules, ctx).Some? ==> IsWinner(rules, Best(rules, ctx).value, ctx)
  {
    if rules != [] {
      BestWins(rules[1..], ctx);
      KeyOrder();
      var tail := rules[1..];
      assert forall j :: 1 <= j < |rules| ==> rules[j] == tail[j - 1];
    }
  }

  lemma {:induction false} SortFindsBest(rules: seq<Rule>, ctx: Context)
    ensures FirstStop(Sort(Active(rules), KeyLe), ctx) ==
      match Best(rules, ctx) case None => None case Some(i) => if i < |rules| then Some(rules[i]) else None
  {
    if rules != [] {
      SortFindsBest(rules[1..], ctx);
      BestWins(rules, ctx);
      BestWins(rules[1..], ctx);
      var rest := Active(rules[1..]);
      if rules[0].active {
        assert Active(rules)[1..] == rest;
        KeyOrder();
        SortSorted(rest, KeyLe);
        FirstStopInsert(rules[0], Sort(rest, KeyLe), ctx);
      } else {
        assert Active(rules) == rest;
      }
    }
  }

  lemma WinnerUnique(rules: seq<Rule>, i: nat, j: nat, ctx: Context)
    requires IsWinner(rules, i, ctx) && IsWinner(rules, j, ctx)
    ensures i == j
  {
    assert KeyLe(rules[i], rules[j]) && KeyLe(rules[j], rules[i]);
  }

  /** The verdict of the winner decides; the fallback, exactly when no active rule stops the scan. */
  lemma WinnerDecides(rules: seq<Rule>, ctx: Context)
    ensures NoneStops(rules, ctx) || exists i: nat :: IsWinner(rules, i, ctx)
    ensures NoneStops(rules, ctx) ==> Evaluate(rules, ctx) == Ok(FALLBACK)
    ensures forall i: nat :: IsWinner(rules, i, ctx) ==> Evaluate(rules, ctx) == Verdict(rules[i])
  {
    ScanFirstStop(Sort(Active(rules), KeyLe), ctx);
    SortFindsBest(rules, ctx);
    BestWins(rules, ctx);
    forall i: nat | IsWinner(rules, i, ctx) ensures Evaluate(rules, ctx) == Verdict(rules[i]) {
      WinnerUnique(rules, i, Best(rules, ctx).value, ctx);
    }
  }

  predicate Broken(rule: Rule) {
    || rule.condition.Malformed?
    || rule.action.Malformed?
    || rule.action.value.strategy.None?
    || StrategyNamed(rule.action.value.strategy.value).None?
  }

  /** Evaluation fails exactly when the deciding rule is broken; a broken rule that comes later is never noticed. */
  lemma FailsExactly(rules: seq<Rule>, ctx: Context)
    ensures Evaluate(rules, ctx).Err? <==> exists i: nat :: IsWinner(rules, i, ctx) && Broken(rules[i])
  {
    WinnerDecides(rules, ctx);
    if i: nat :| IsWinner(rules, i, ctx) {
      forall j: nat | IsWinner(rules, j, ctx) ensures j == i {
        WinnerUnique(rules, i, j, ctx);
      }
    }
  }

  // ---- Independence

  /** The UNIQUE constraint on the code. */
  ghost predicate UniqueCodes(rules: seq<Rule>) {
    forall i, j :: 0 <= i < j < |rules| ==> rules[i].code != rules[j].code
  }

  /**
   Two rule bases decide alike when the second holds the winner of the first and, besides rules of the
   first, only rules that are inactive, do not stop the scan, or are ordered after the winner.
   */
  lemma OnlyEarlierRulesMatter(rules: seq<Rule>, others: seq<Rule>, i: nat, ctx: Context)
    requires UniqueCodes(others) && IsWinner(rules, i, ctx) && rules[i] in others
    requires forall r :: r in others && r.active && Stops(r, ctx) ==> r in rules || KeyLe(rules[i], r)
    ensures Evaluate(others, ctx) == Evaluate(rules, ctx)
  {
    var k :| 0 <= k < |others| && others[k] == rules[i];
    forall j | 0 <= j < |others| && others[j].active && Stops(others[j], ctx)
      ensures KeyLe(others[k], others[j]) && (KeyLe(others[j], others[k]) ==> k <= j)
    {
      assert others[j] in others;
      if KeyLe(others[j], others[k]) && KeyLe(others[k], others[j]) {
        StringAntisymmetric(others[j].code, others[k].code);
      }
    }
    assert IsWinner(others, k, ctx);
    WinnerDecides(rules, ctx);
    WinnerDecides(others, ctx);
  }

  /** With unique codes, the decision does not depend on the order of the rules. */
  lemma OrderIrrelevant(rules: seq<Rule>, others: seq<Rule>, ctx: Context)
    requires multiset(rules) == multiset(others) && UniqueCodes(others)
    ensures Evaluate(others, ctx) == Evaluate(rules, ctx)
  {
    assert forall r :: r in rules <==> r in multiset(rules);
    assert forall r :: r in others <==> r in multiset(others);
    WinnerDecides(rules, ctx);
    if i: nat :| IsWinner(rules, i, ctx) {
      assert rules[i] in others;
      OnlyEarlierRulesMatter(rules, others, i, ctx);
    } else {
      forall j | 0 <= j < |others| ensures !(others[j].active && Stops(others[j], ctx)) {
        assert others[j] in rules;
      }
      WinnerDecides(others, ctx);
    }
  }

  // ---- The decision, field by field

  function StrategyName(s: Strategy): string {
    match s
    case SURVEILLANCE => "SURVEILLANCE"
    case COLMATAGE => "COLMATAGE"
    case RESURFACAGE => "RESURFACAGE"
    case REHABILITATION => "REHABILITATION"
    case RECONSTRUCTION => "RECONSTRUCTION"
  }

  /** A name is read as the strategy that bears it, and as none when none does. */
  lemma StrategyRead(name: string)
    ensures StrategyNamed(name).Some? ==> StrategyName(StrategyNamed(name).value) == name
    ensures StrategyNamed(name).None? ==> forall s :: StrategyName(s) != name
  {
  }

  /** The first rule of the scan: no other active rule that stops it has a smaller (priority, code). */
  lemma WinnerFirst(rules: seq<Rule>, i: nat, j: nat, ctx: Context)
    requires IsWinner(rules, i, ctx) && j < |rules| && rules[j].active && Stops(rules[j], ctx)
    ensures rules[i].priority < rules[j].priority
         || (rules[i].priority == rules[j].priority && StringLe(rules[i].code, rules[j].code))
  {
  }

  /** What the deciding rule decides, in its own fields, and the error of each kind of broken rule. */
  lemma DecisionFields(rules: seq<Rule>, i: nat, ctx: Context)
    requires IsWinner(rules, i, ctx)
    ensures
      var rule, r := rules[i], Evaluate(rules, ctx);
      && (rule.condition.Malformed? ==> r == Err(BadCondition(rule.code)))
      && (rule.condition.Parsed? && rule.action.Malformed? ==> r == Err(BadAction(rule.code)))
      && (rule.condition.Parsed? && rule.action.Parsed? ==>
            var a := rule.action.value;
            && (a.strategy.None? || (forall s :: StrategyName(s) != a.strategy.value) ==> r == Err(BadStrategy(rule.code)))
            && (forall s :: a.strategy == Some(StrategyName(s)) ==>
                  && r.Ok? && r.value.strategy == s
                  && r.value.ruleCode == rule.code && r.value.ruleName == rule.name
                  && r.value.estimatedDays == a.estimatedDays && r.value.deadlineDays == a.deadlineDays
                  && r.value.costMin == a.costMin && r.value.costMax == a.costMax))
  {
    hide Evaluate;
    WinnerDecides(rules, ctx);
    var action := rules[i].action;
    if action.Parsed? && action.value.strategy.Some? {
      StrategyRead(action.value.strategy.value);
      forall s, t | StrategyName(s) == StrategyName(t) ensures s == t { NamesApart(s, t); }
    }
  }

  lemma NamesApart(s: Strategy, t: Strategy)
    requires StrategyName(s) == StrategyName(t)
    ensures s == t
  {
    assert StrategyNamed(StrategyName(s)) == Some(s);
    assert StrategyNamed(StrategyName(t)) == Some(t);
  }

  /** Nothing matches and nothing is broken: surveillance under the code FALLBACK, without days or costs. */
  lemma FallbackFields(rules: seq<Rule>, ctx: Context)
    requires NoneStops(rules, ctx)
    ensures
      var r := Evaluate(rules, ctx);
      && r.Ok? && r.value.strategy == SURVEILLANCE && r.value.ruleCode == "FALLBACK"
      && r.value.ruleName == "Surveillance par défaut"
      && r.value.estimatedDays.None? && r.value.deadlineDays.None? && r.value.costMin.None? && r.value.costMax.None?
  {
    hide Evaluate, NoneStops;
    WinnerDecides(rules, ctx);
  }
}

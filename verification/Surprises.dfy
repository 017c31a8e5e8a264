/**
 Three limits of the decision chain, on boxes the model can predict with the seeded damage types. A second, less
 sure box on a full image raises the score. Inside one band, a surer box lowers the score and yet swaps a
 rehabilitation within 60 days for a resurfacing within 90, because the dominant type changes. And a stored score
 can stand on a threshold while the recorded level is the one below it.
 */
module Surprises {
  import opened Wrappers
  import opened Rounding
  import opened Ordering
  import opened Sums
  import opened PciEngine
  import opened PciAreas
  import opened PciMeaning
  import opened PciOrder
  import opened AnalysisWorker
  import opened RuleEngine
  import opened SeedRules
  import opened DecisionChain
  import D = Detector

  // ---- Boxes on one image, and what the engine sees of them

  /** The eight seeded damage types (02_seed_data.sql) with their weights. */
  const TYPES: map<Code, real> := map[
    "POTHOLE" := 0.35, "ALLIGATOR_CRACK" := 0.3, "RUTTING" := 0.28, "RAVELLING" := 0.25,
    "LONGITUDINAL_CRACK" := 0.15, "LATERAL_CRACK" := 0.15, "EDGE_CRACKING" := 0.12, "STRIPING" := 0.05]

  const SURVEY: seq<ImageId> := ["image"]

  /** A box of the full height of the frame around its centre. */
  function FullHeight(code: Code, confidence: real, width: real): D.Box {
    D.Box(code, confidence, 0.5, 0.5, width, 1.0)
  }

  function Sees(boxes: seq<D.Box>): Model {
    image => boxes
  }

  lemma TypesKnown()
    ensures "POTHOLE" in TYPES && TYPES["POTHOLE"] == 0.35 && "RAVELLING" in TYPES && TYPES["RAVELLING"] == 0.25
    ensures ValidTypes(TYPES)
  {
    assert "POTHOLE"[0] == 'P' && "ALLIGATOR_CRACK"[0] == 'A' && "RUTTING"[1] == 'U' && "RAVELLING"[1] == 'A';
    assert "LONGITUDINAL_CRACK"[0] == 'L' && "LATERAL_CRACK"[0] == 'L' && "EDGE_CRACKING"[0] == 'E' && "STRIPING"[0] == 'S';
    assert "RUTTING"[0] == 'R' && "RAVELLING"[0] == 'R' && "RAVELLING"[2] == 'V';
  }

  /** The detection of such a box: all of the area part of the severity, and the width as the area. */
  lemma FullHeightFound(b: D.Box, confidence: real, width: int, severity: int)
    requires b == FullHeight(b.code, confidence, width as real / 10000.0) && 1000 <= width <= 10000
    requires 0.4 * confidence + 0.6 == severity as real / 10000.0 && severity <= 10000
    ensures
      var f := D.ToFound(b);
      && f.code == b.code && f.severity == severity as real / 10000.0
      && f.width == width as real / 10000.0 && f.height == 1.0
  {
    hide Round4;
    Round4OnGrid(width);
    Round4OnGrid(10000);
    Round4OnGrid(severity);
    var area := D.RelativeArea(width as real / 10000.0, 1.0);
    assert area == width as real / 10000.0;
  }

  lemma KnownOne(b: D.Box)
    requires b.code in TYPES
    ensures Known("image", [b], TYPES) == [DetectionRow("image", D.ToFound(b))]
  {
    hide D.ToFound;
    FoundCode(b);
    assert [b][..0] == [];
  }

  lemma KnownTwo(a: D.Box, b: D.Box)
    requires a.code in TYPES && b.code in TYPES
    ensures Known("image", [a, b], TYPES) == [DetectionRow("image", D.ToFound(a)), DetectionRow("image", D.ToFound(b))]
  {
    hide D.ToFound;
    FoundCode(b);
    KnownOne(a);
    assert [a, b][..1] == [a];
  }

  lemma FoundCode(b: D.Box)
    ensures D.ToFound(b).code == b.code
  {
  }

  lemma CollectedSurvey(boxes: seq<D.Box>)
    ensures Collected(SURVEY, Sees(boxes), TYPES) == Known("image", boxes, TYPES)
  {
    hide Known;
    assert SURVEY[..0] == [];
    assert Collected(SURVEY[..0], Sees(boxes), TYPES) == [];
  }

  lemma InputsOne(b: D.Box)
    requires b.code in TYPES
    ensures var f := D.ToFound(b);
      f.code == b.code
      && RunInputs(SURVEY, Sees([b]), TYPES) ==
        [Detection(f.code, TYPES[f.code], f.severity, D.RelativeArea(f.width, f.height), "image")]
  {
    hide D.ToFound, Known, Collected;
    FoundCode(b);
    CollectedSurvey([b]);
    KnownOne(b);
    CollectedWellFormed(SURVEY, Sees([b]), TYPES);
  }

  lemma InputsTwo(a: D.Box, b: D.Box)
    requires a.code in TYPES && b.code in TYPES
    ensures var f, g := D.ToFound(a), D.ToFound(b);
      f.code == a.code && g.code == b.code
      && RunInputs(SURVEY, Sees([a, b]), TYPES) ==
        [Detection(f.code, TYPES[f.code], f.severity, D.RelativeArea(f.width, f.height), "image"),
         Detection(g.code, TYPES[g.code], g.severity, D.RelativeArea(g.width, g.height), "image")]
  {
    hide D.ToFound, Known, Collected;
    FoundCode(a);
    FoundCode(b);
    CollectedSurvey([a, b]);
    KnownTwo(a, b);
    CollectedWellFormed(SURVEY, Sees([a, b]), TYPES);
  }

  lemma PredictedRun(boxes: seq<D.Box>)
    requires forall j :: 0 <= j < |boxes| ==> D.Predicted(boxes[j])
    ensures ValidRun(SURVEY, Sees(boxes), TYPES)
  {
    TypesKnown();
  }

  /** The facts a run hands to the rules. */
  lemma RunFacts(boxes: seq<D.Box>)
    ensures
      var ds := RunInputs(SURVEY, Sees(boxes), TYPES);
      var a := AnalysisOf(SURVEY, Sees(boxes), TYPES);
      && a.pci.score == StoredScore(ds, 1)
      && ContextOf(a).pci == StoredScore(ds, 1) && ContextOf(a).dominant == DominantOf(Breakdown(ds, 1))
  {
    hide StoredScore, Score, Breakdown, DominantOf, RunInputs, Collected, MeanConfidence, ClassifySeverity, ClassifyPriority;
  }

  lemma KnownOn(image: ImageId, b: D.Box)
    requires b.code in TYPES
    ensures Known(image, [b], TYPES) == [DetectionRow(image, D.ToFound(b))]
  {
    hide D.ToFound;
    FoundCode(b);
    assert [b][..0] == [];
  }

  // ---- A second box on a full image

  const SURE_POTHOLE := FullHeight("POTHOLE", 1.0, 1.0)
  const UNSURE_POTHOLE := FullHeight("POTHOLE", 0.5, 1.0)

  const FIRST := Detection("POTHOLE", 0.35, 1.0, 1.0, "image")
  const SECOND := Detection("POTHOLE", 0.35, 0.8, 1.0, "image")

  lemma OneType(ds: seq<Detection>, c: Code, n: int)
    requires n >= 1 && ds != [] && Group(ds, c) == ds && Codes(ds) == {c}
    ensures RawScore(ds, n) == 100.0 - Deduction(ds, n)
  {
    hide Deduction, Group, Codes;
    SumAdd(map[], c, Deduction(ds, n));
    assert map[][c := Deduction(ds, n)] == Deductions(ds, n);
  }

  lemma Single(d: Detection, q: Quantity)
    ensures Tally([d], q) == Value(d, q) && Group([d], d.code) == [d]
    ensures Codes([d]) == {d.code} && Images([d]) == {d.image}
  {
    assert [d][..0] == [];
    assert Group([d][..0], d.code) == [];
    assert d in [d];
  }

  lemma WholeImagePotholes(ds: seq<Detection>, q: Quantity)
    requires ds == [FIRST] || ds == [FIRST] + [SECOND]
    ensures Group(ds, "POTHOLE") == ds && Codes(ds) == {"POTHOLE"} && Images(ds) == {"image"}
    ensures Tally(ds, q) == Value(FIRST, q) + if |ds| == 1 then 0.0 else Value(SECOND, q)
  {
    hide Tally, Group, Value;
    Single(FIRST, q);
    Single(SECOND, q);
    if |ds| == 2 {
      TallyConcat([FIRST], [SECOND], q);
      GroupConcat([FIRST], [SECOND], "POTHOLE");
      assert Codes(ds) == Codes([FIRST]) + Codes([SECOND]);
      assert Images(ds) == Images([FIRST]) + Images([SECOND]);
    }
  }

  lemma OneFullImage(ds: seq<Detection>)
    requires Images(ds) == {"image"} && Tally(ds, AreaOn("image")) >= 1.0
    ensures Damaged(ds) == 1.0
  {
    hide Tally, Images;
    SumAdd(map[], "image", 1.0);
    assert map[]["image" := 1.0] == PerImage(ds);
  }

  lemma SecondBoxDilutes(ds: seq<Detection>)
    requires ds == [FIRST] || ds == [FIRST] + [SECOND]
    ensures Deduction(ds, 1) == if |ds| == 1 then 35.0 else 31.5
  {
    hide Tally, Group, Codes, Damaged, Images;
    WholeImagePotholes(ds, AreaOn("image"));
    WholeImagePotholes(ds, Area);
    WholeImagePotholes(ds, SeverityArea);
    OneFullImage(ds);
    DeductionParts(ds, 1);
    assert 1.0 / 1 as real == 1.0;
  }

  lemma PotholeScores()
    ensures StoredScore([FIRST], 1) == 65.0 && StoredScore([FIRST] + [SECOND], 1) == 68.5
  {
    hide Deduction, Group, Codes, Tally, Round2, RawScore;
    WholeImagePotholes([FIRST], Area);
    WholeImagePotholes([FIRST] + [SECOND], Area);
    SecondBoxDilutes([FIRST]);
    SecondBoxDilutes([FIRST] + [SECOND]);
    OneType([FIRST], "POTHOLE", 1);
    OneType([FIRST] + [SECOND], "POTHOLE", 1);
    Round2OnGrid(6500);
    Round2OnGrid(6850);
  }

  lemma PotholeInputs()
    ensures RunInputs(SURVEY, Sees([SURE_POTHOLE]), TYPES) == [FIRST]
    ensures RunInputs(SURVEY, Sees([SURE_POTHOLE, UNSURE_POTHOLE]), TYPES) == [FIRST] + [SECOND]
  {
    hide D.ToFound, RunInputs;
    TypesKnown();
    FullHeightFound(SURE_POTHOLE, 1.0, 10000, 10000);
    FullHeightFound(UNSURE_POTHOLE, 0.5, 10000, 8000);
    InputsOne(SURE_POTHOLE);
    InputsTwo(SURE_POTHOLE, UNSURE_POTHOLE);
    WholeArea();
  }

  lemma WholeArea()
    ensures D.RelativeArea(1.0, 1.0) == 1.0
  {
  }

  /** A pothole over the whole image, and a second, less sure one on the same image: 65 points become 68.5. */
  lemma SecondBoxLiftsScore()
    ensures D.Predicted(SURE_POTHOLE) && D.Predicted(UNSURE_POTHOLE)
    ensures ValidRun(SURVEY, Sees([SURE_POTHOLE]), TYPES) && ValidRun(SURVEY, Sees([SURE_POTHOLE, UNSURE_POTHOLE]), TYPES)
    ensures AnalysisOf(SURVEY, Sees([SURE_POTHOLE]), TYPES).pci.score == 65.0
    ensures AnalysisOf(SURVEY, Sees([SURE_POTHOLE, UNSURE_POTHOLE]), TYPES).pci.score == 68.5
  {
    hide AnalysisOf, RunInputs, StoredScore, ValidRun, Breakdown, DominantOf;
    PredictedRun([SURE_POTHOLE]);
    PredictedRun([SURE_POTHOLE, UNSURE_POTHOLE]);
    PotholeInputs();
    PotholeScores();
    RunFacts([SURE_POTHOLE]);
    RunFacts([SURE_POTHOLE, UNSURE_POTHOLE]);
  }

  // ---- A surer box inside one band

  const MOST_POTHOLE := FullHeight("POTHOLE", 0.5, 0.82)
  const RAVELLED := FullHeight("RAVELLING", 0.75, 1.0)
  const SURELY_RAVELLED := FullHeight("RAVELLING", 1.0, 1.0)

  const POTTED := Detection("POTHOLE", 0.35, 0.8, 0.82, "image")

  function Ravelling(y: real): Detection {
    Detection("RAVELLING", 0.25, y, 1.0, "image")
  }

  lemma OneBox(d: Detection)
    requires 0.0 < d.area <= 1.0
    ensures Damaged([d]) == d.area && MeanSeverity([d]) == d.severity
  {
    var g := [d];
    hide Group, Codes;
    Single(d, Area);
    Single(d, SeverityArea);
    Single(d, AreaOn(d.image));
    SumAdd(map[], d.image, d.area);
    assert map[][d.image := d.area] == PerImage(g);
    assert d.severity * d.area / d.area == d.severity;
  }

  lemma OneBoxCost(d: Detection)
    requires 0.0 < d.area <= 1.0
    ensures Deduction([d], 1) == Points(d.weight, d.severity, d.area)
  {
    hide Damaged, MeanSeverity, Points;
    OneBox(d);
    assert d.area / 1 as real == d.area;
  }

  lemma TwoNames()
    ensures Increasing(["POTHOLE", "RAVELLING"])
    ensures Elements(["POTHOLE", "RAVELLING"]) == {"POTHOLE", "RAVELLING"}
  {
    assert "POTHOLE"[0] == 'P' && "RAVELLING"[0] == 'R';
    var names := ["POTHOLE", "RAVELLING"];
    assert names[0] in Elements(names) && names[1] in Elements(names);
  }

  lemma OneGroup(d: Detection, c: Code)
    ensures Group([d], c) == if d.code == c then [d] else []
  {
    assert [d][..0] == [];
  }

  lemma TwoDeductions(ds: seq<Detection>, p: real, q: real)
    requires Codes(ds) == {"POTHOLE", "RAVELLING"}
    requires Deduction(Group(ds, "POTHOLE"), 1) == p && Deduction(Group(ds, "RAVELLING"), 1) == q
    ensures PointsLost(ds, 1) == p + q
  {
    hide Deduction, Group, Codes;
    assert "POTHOLE"[0] == 'P' && "RAVELLING"[0] == 'R';
    TwoSum("POTHOLE", p, "RAVELLING", q);
    assert Deductions(ds, 1) == map["POTHOLE" := p, "RAVELLING" := q];
  }

  lemma TwoSum(a: Code, x: real, b: Code, y: real)
    requires a != b
    ensures Sum(map[a := x, b := y]) == x + y
  {
    SumAdd(map[], a, x);
    SumAdd(map[a := x], b, y);
    assert map[][a := x] == map[a := x] && map[a := x][b := y] == map[a := x, b := y];
  }

  lemma TwoCodes(y: real)
    ensures
      var ds := [POTTED, Ravelling(y)];
      Codes(ds) == {"POTHOLE", "RAVELLING"} && Listing(Codes(ds)) == ["POTHOLE", "RAVELLING"]
  {
    hide Group;
    var ds := [POTTED, Ravelling(y)];
    assert ds[..0] == [] && ds[..1] == [ds[0]] && ds[..2] == ds;
    CodesStep(ds, 0);
    CodesStep(ds, 1);
    TwoNames();
    IncreasingUnique(Listing(Codes(ds)), ["POTHOLE", "RAVELLING"]);
  }

  lemma TwoGroups(y: real)
    ensures
      var ds := [POTTED, Ravelling(y)];
      Group(ds, "POTHOLE") == [POTTED] && Group(ds, "RAVELLING") == [Ravelling(y)]
  {
    hide Group, Codes;
    assert "POTHOLE"[0] == 'P' && "RAVELLING"[0] == 'R';
    GroupConcat([POTTED], [Ravelling(y)], "POTHOLE");
    GroupConcat([POTTED], [Ravelling(y)], "RAVELLING");
    assert [POTTED] + [Ravelling(y)] == [POTTED, Ravelling(y)];
    OneGroup(POTTED, "POTHOLE");
    OneGroup(POTTED, "RAVELLING");
    OneGroup(Ravelling(y), "POTHOLE");
    OneGroup(Ravelling(y), "RAVELLING");
  }

  lemma ExactPoints(y: real)
    ensures Points(0.35, 0.8, 0.82) == 22.96 && Points(0.25, y, 1.0) == 25.0 * y
  {
  }

  lemma TwoCosts(y: real)
    ensures
      var ds := [POTTED, Ravelling(y)];
      && PointsLost(ds, 1) == 22.96 + 25.0 * y
      && |Breakdown(ds, 1)| == 2
      && Breakdown(ds, 1)[0].code == "POTHOLE" && Breakdown(ds, 1)[0].deduction == Round4(22.96)
      && Breakdown(ds, 1)[1].code == "RAVELLING" && Breakdown(ds, 1)[1].deduction == Round4(25.0 * y)
  {
    hide Deduction, Round4, Group, Codes, Breakdown, Points, MeanSeverity, Density, Deductions, Increasing, Elements;
    var ds := [POTTED, Ravelling(y)];
    TwoCodes(y);
    TwoGroups(y);
    OneBoxCost(POTTED);
    OneBoxCost(Ravelling(y));
    ExactPoints(y);
    BreakdownAt(ds, 1, 0);
    BreakdownAt(ds, 1, 1);
    TwoDeductions(ds, 22.96, 25.0 * y);
  }

  lemma Before()
    ensures
      var ds := [POTTED, Ravelling(0.9)];
      && StoredScore(ds, 1) == 54.54 && DominantOf(Breakdown(ds, 1)) == Some("POTHOLE")
  {
    hide Breakdown, Round4, Round2, PointsLost;
    var ds := [POTTED, Ravelling(0.9)];
    TwoCosts(0.9);
    Round4OnGrid(229600);
    Round4OnGrid(225000);
    Round2OnGrid(5454);
    assert IsDominant(Breakdown(ds, 1), 0);
    DominantAgrees(Breakdown(ds, 1), Some("POTHOLE"));
  }

  lemma After()
    ensures
      var ds := [POTTED, Ravelling(1.0)];
      && StoredScore(ds, 1) == 52.04 && DominantOf(Breakdown(ds, 1)) == Some("RAVELLING")
  {
    hide Breakdown, Round4, Round2, PointsLost;
    var ds := [POTTED, Ravelling(1.0)];
    TwoCosts(1.0);
    Round4OnGrid(229600);
    Round4OnGrid(250000);
    Round2OnGrid(5204);
    assert IsDominant(Breakdown(ds, 1), 1);
    DominantAgrees(Breakdown(ds, 1), Some("RAVELLING"));
  }

  lemma RavelledInputs()
    ensures RunInputs(SURVEY, Sees([MOST_POTHOLE, RAVELLED]), TYPES) == [POTTED, Ravelling(0.9)]
    ensures RunInputs(SURVEY, Sees([MOST_POTHOLE, SURELY_RAVELLED]), TYPES) == [POTTED, Ravelling(1.0)]
  {
    hide D.ToFound, RunInputs;
    TypesKnown();
    FullHeightFound(MOST_POTHOLE, 0.5, 8200, 8000);
    FullHeightFound(RAVELLED, 0.75, 10000, 9000);
    FullHeightFound(SURELY_RAVELLED, 1.0, 10000, 10000);
    InputsTwo(MOST_POTHOLE, RAVELLED);
    InputsTwo(MOST_POTHOLE, SURELY_RAVELLED);
    WholeArea();
    MostArea();
  }

  lemma MostArea()
    ensures D.RelativeArea(0.82, 1.0) == 0.82
  {
  }

  lemma SeedOfRavelling(ctx: Context)
    requires 40.0 <= ctx.pci < 55.0 && ctx.dominant == Some("RAVELLING")
    ensures SeedFor(ctx) == 2
  {
    assert "POTHOLE"[0] == 'P' && "ALLIGATOR_CRACK"[0] == 'A' && "RUTTING"[1] == 'U' && "RAVELLING"[1] == 'A';
  }

  lemma SeedOfPothole(ctx: Context)
    requires 40.0 <= ctx.pci < 55.0 && ctx.dominant == Some("POTHOLE")
    ensures SeedFor(ctx) == 1
  {
    assert STRUCTURAL[0] == "POTHOLE";
  }

  lemma SeedDecision(ctx: Context, k: nat)
    requires SeedFor(ctx) == k && (k == 1 || k == 2)
    ensures
      var r := Evaluate(SEEDS, ctx);
      && r.Ok? && Heaviness(r.value.strategy) == (if k == 1 then 3 else 2)
      && r.value.deadlineDays == Some(if k == 1 then 60 else 90)
  {
    hide Evaluate, Verdict, SeedFor, Band;
    SeedsTotal(ctx);
    SeedVerdict(k);
  }

  lemma OnlySurer()
    ensures SurerModel(SURVEY, Sees([MOST_POTHOLE, RAVELLED]), Sees([MOST_POTHOLE, SURELY_RAVELLED]))
  {
  }

  /**
   The same boxes, one of them predicted with more confidence: the stored score falls, and the strategy becomes
   lighter with a longer deadline. The two scores share a band, where the general theorem promises nothing.
   */
  lemma WorseDamageLighterWork()
    ensures D.Predicted(MOST_POTHOLE) && D.Predicted(RAVELLED) && D.Predicted(SURELY_RAVELLED)
    ensures
      var model, more := Sees([MOST_POTHOLE, RAVELLED]), Sees([MOST_POTHOLE, SURELY_RAVELLED]);
      && ValidRun(SURVEY, model, TYPES) && ValidRun(SURVEY, more, TYPES) && SurerModel(SURVEY, model, more)
      && var a, b := AnalysisOf(SURVEY, model, TYPES), AnalysisOf(SURVEY, more, TYPES);
         var x, y := Evaluate(SEEDS, ContextOf(a)), Evaluate(SEEDS, ContextOf(b));
         && a.pci.score == 54.54 && b.pci.score == 52.04
         && x.Ok? && y.Ok? && Heaviness(y.value.strategy) < Heaviness(x.value.strategy)
         && x.value.deadlineDays == Some(60) && y.value.deadlineDays == Some(90)
  {
    hide AnalysisOf, RunInputs, StoredScore, ValidRun, Breakdown, DominantOf, ContextOf, Evaluate, SeedFor, SurerModel, Sees;
    var before, after := [MOST_POTHOLE, RAVELLED], [MOST_POTHOLE, SURELY_RAVELLED];
    PredictedRun(before);
    PredictedRun(after);
    OnlySurer();
    RavelledInputs();
    Before();
    After();
    RunFacts(before);
    RunFacts(after);
    SeedOfPothole(ContextOf(AnalysisOf(SURVEY, Sees(before), TYPES)));
    SeedOfRavelling(ContextOf(AnalysisOf(SURVEY, Sees(after), TYPES)));
    SeedDecision(ContextOf(AnalysisOf(SURVEY, Sees(before), TYPES)), 1);
    SeedDecision(ContextOf(AnalysisOf(SURVEY, Sees(after), TYPES)), 2);
  }

  // ---- A level behind its score

  const ALMOST := FullHeight("POTHOLE", 1.0, 0.4287)
  const ALMOST_SEEN := Detection("POTHOLE", 0.35, 1.0, 0.4287, "image")

  lemma AlmostInputs()
    ensures RunInputs(SURVEY, Sees([ALMOST]), TYPES) == [ALMOST_SEEN]
  {
    hide D.ToFound, RunInputs;
    TypesKnown();
    FullHeightFound(ALMOST, 1.0, 4287, 10000);
    InputsOne(ALMOST);
    AlmostArea();
  }

  lemma AlmostArea()
    ensures D.RelativeArea(0.4287, 1.0) == 0.4287 && Points(0.35, 1.0, 0.4287) == 15.0045
  {
  }

  lemma AlmostScore()
    ensures Score([ALMOST_SEEN], 1) == 84.9955
  {
    hide Deduction, Group, Codes, Points, Tally;
    Single(ALMOST_SEEN, Area);
    OneBoxCost(ALMOST_SEEN);
    AlmostArea();
    OneType([ALMOST_SEEN], "POTHOLE", 1);
  }

  lemma AlmostRounded()
    ensures Round2(84.9955) == 85.0
  {
    assert HalfUp(8499.55) == 8500;
  }

  /** The levels a run records are those of the unrounded score. */
  lemma RunLevels(boxes: seq<D.Box>)
    ensures
      var ds := RunInputs(SURVEY, Sees(boxes), TYPES);
      var a := AnalysisOf(SURVEY, Sees(boxes), TYPES);
      && a.pci.score == Round2(Score(ds, 1))
      && a.pci.severity == ClassifySeverity(Score(ds, 1)) && a.pci.priority == ClassifyPriority(Score(ds, 1))
  {
    hide Round2, Score, Breakdown, DominantOf, RunInputs, Collected, MeanConfidence, ClassifySeverity, ClassifyPriority;
  }

  /** One sure pothole over 42.87 % of the image: the stored score is 85, the recorded level the one below 85. */
  lemma LevelBehindScore()
    ensures D.Predicted(ALMOST) && ValidRun(SURVEY, Sees([ALMOST]), TYPES)
    ensures
      var a := AnalysisOf(SURVEY, Sees([ALMOST]), TYPES);
      a.pci.score == 85.0 && a.pci.priority == P3_SURVEILLANCE && ClassifyPriority(a.pci.score) == P4_EXCELLENT
  {
    hide AnalysisOf, RunInputs, Score, ValidRun, Round2;
    PredictedRun([ALMOST]);
    AlmostInputs();
    AlmostScore();
    AlmostRounded();
    RunLevels([ALMOST]);
  }

  // ---- One pothole in a long survey

  /** A model that sees one sure pothole over the whole of one image and nothing on any other. */
  function SeesOn(image: ImageId): Model {
    i => if i == image then [SURE_POTHOLE] else []
  }

  function On(image: ImageId): Detection {
    Detection("POTHOLE", 0.35, 1.0, 1.0, image)
  }

  lemma SurveyInputs(images: seq<ImageId>)
    requires images != [] && Distinct(images)
    ensures RunInputs(images, SeesOn(images[0]), TYPES) == [On(images[0])]
  {
    hide D.ToFound, Known;
    var image, model := images[0], SeesOn(images[0]);
    TypesKnown();
    FullHeightFound(SURE_POTHOLE, 1.0, 10000, 10000);
    WholeArea();
    KnownOn(image, SURE_POTHOLE);
    assert [image][..0] == [];
    assert Collected([image], model, TYPES) == Collected([], model, TYPES) + Known(image, [SURE_POTHOLE], TYPES);
    forall i | i in images[1..] ensures model(i) == [] {
      var j :| 0 <= j < |images[1..]| && images[1..][j] == i;
      assert images[j + 1] == i && images[0] != images[j + 1];
    }
    CleanCollected([image], images[1..], model, TYPES);
    assert [image] + images[1..] == images;
    CollectedWellFormed(images, model, TYPES);
  }

  lemma SurveyRun(images: seq<ImageId>)
    requires images != [] && Distinct(images)
    ensures ValidRun(images, SeesOn(images[0]), TYPES)
  {
    TypesKnown();
  }

  lemma SurveyScore(image: ImageId, n: int)
    requires n >= 1
    ensures Score([On(image)], n) == 100.0 - 35.0 / n as real
  {
    hide PointsLost;
    LoneDetection(On(image), n);
    ThirtyFive(n as real);
  }

  lemma ThirtyFive(n: real)
    requires n >= 1.0
    ensures 0.0 <= 35.0 / n <= 35.0 && 100.0 * 0.35 * 1.0 * 1.0 / n == 35.0 / n
  {
    Quotient(35.0, 1.0, n);
  }

  /** The pothole costs 35 points divided by the number of images of the survey. */
  lemma PotholeInSurvey(images: seq<ImageId>)
    requires images != [] && Distinct(images)
    ensures ValidRun(images, SeesOn(images[0]), TYPES)
    ensures AnalysisOf(images, SeesOn(images[0]), TYPES).pci.score == Round2(100.0 - 35.0 / |images| as real)
  {
    hide AnalysisOf, RunInputs, Score, ValidRun, Round2, PciOf;
    SurveyRun(images);
    SurveyInputs(images);
    SurveyScore(images[0], |images|);
    SummaryMeans(images, SeesOn(images[0]), TYPES);
    ScoreStored([On(images[0])], |images|);
  }

  lemma ScoreStored(ds: seq<Detection>, n: int)
    requires n >= 1
    ensures PciOf(ds, n).score == Round2(Score(ds, n))
  {
    hide Round2, Score, Breakdown;
  }

  function Crosses(n: nat): string {
    if n == 0 then "" else Crosses(n - 1) + "x"
  }

  lemma {:induction false} CrossesLength(n: nat)
    ensures |Crosses(n)| == n
  {
    if n > 0 { CrossesLength(n - 1); }
  }

  /** A hundred images with names of different lengths. */
  const HUNDRED: seq<ImageId> := seq(100, i requires 0 <= i < 100 => Crosses(i))

  lemma HundredDistinct()
    ensures |HUNDRED| == 100 && Distinct(HUNDRED)
  {
    forall i, j | 0 <= i < j < 100 ensures HUNDRED[i] != HUNDRED[j] {
      CrossesLength(i);
      CrossesLength(j);
    }
  }

  /** One pothole over one image of a hundred does not tank the section: 99.65, where alone it gives 65. */
  lemma OneOfAHundred()
    ensures |HUNDRED| == 100 && ValidRun(HUNDRED, SeesOn(HUNDRED[0]), TYPES)
    ensures AnalysisOf(HUNDRED, SeesOn(HUNDRED[0]), TYPES).pci.score == 99.65
    ensures AnalysisOf(SURVEY, SeesOn("image"), TYPES).pci.score == 65.0
  {
    hide AnalysisOf, ValidRun, Round2, Distinct, HUNDRED;
    HundredDistinct();
    PotholeInSurvey(HUNDRED);
    Round2OnGrid(9965);
    assert Distinct(SURVEY) by { OneName(); }
    PotholeInSurvey(SURVEY);
    Round2OnGrid(6500);
  }

  lemma OneName()
    ensures Distinct(SURVEY)
  {
  }
}

/**
 The whole chain, from the boxes of the model to the maintenance decision: what a run over the images
 of an inspection decides under the seeded rules, and how that moves when the damage gets worse.
 */
module DecisionChain {
  import opened Wrappers
  import opened Rounding
  import opened Ordering
  import opened Sums
  import opened PciEngine
  import opened PciOrder
  import opened PciBounds
  import opened AnalysisWorker
  import opened RuleEngine
  import opened SeedRules
  import D = Detector

  /** The facts the rules see: the stored score with the recorded levels, and the summary. */
  function ContextOf(a: Analysis): Context {
    Context(a.pci.score, a.pci.severity, a.pci.priority, a.dominant, a.total)
  }

  /** The images of one inspection, with the schema's weights and confidences in [0, 1]. */
  ghost predicate ValidRun(images: seq<ImageId>, model: Model, types: map<Code, real>) {
    images != [] && Distinct(images) && ConfidentModel(images, model) && ValidTypes(types)
  }

  // ---- Every run succeeds, within bounds

  /**
   No run over uploaded images fails in the engine; its score meets the CHECK of the column, is at least
   100 (1 - total weight of the types present), and the seeded rules decide it by a rule of their own.
   */
  lemma EveryRunDecides(images: seq<ImageId>, model: Model, types: map<Code, real>)
    requires ValidRun(images, model, types)
    ensures AllInRange(RunInputs(images, model, types))
    ensures
      var a := AnalysisOf(images, model, types);
      var ds := RunInputs(images, model, types);
      && 0.0 <= a.pci.score <= 100.0
      && 100.0 * (1.0 - Sum(Weights(ds))) <= RawScore(ds, |images|) <= 100.0
      && Evaluate(SEEDS, ContextOf(a)).Ok?
      && Evaluate(SEEDS, ContextOf(a)).value.ruleCode != "FALLBACK"
  {
    hide AllInRange, WeightsNonNegative, OnImages, RunInputs, StoredScore, RawScore, Score, Breakdown, DominantOf,
         Weights, Collected, Evaluate, MeanConfidence;
    var ds := RunInputs(images, model, types);
    EngineAccepts(images, model, types);
    InputsShape(images, model, types);
    RawScoreBounds(ds, Elements(images), |images|);
    StoredScoreInRange(ds, |images|);
    SeedsTotal(ContextOf(AnalysisOf(images, model, types)));
  }

  /** What the rules see of a run: its stored score, its recorded levels, the dominant type and all its detections. */
  lemma ContextFields(images: seq<ImageId>, model: Model, types: map<Code, real>)
    requires images != []
    ensures
      var a, ctx := AnalysisOf(images, model, types), ContextOf(AnalysisOf(images, model, types));
      && ctx.pci == a.pci.score && ctx.severity == a.pci.severity && ctx.priority == a.pci.priority
      && ctx.dominant == a.dominant && ctx.detections == |a.rows|
  {
    hide PciOf, RunInputs, Collected, DominantOf, MeanConfidence;
  }

  // ---- Surer detections

  /** The same boxes on every image, each predicted with at least the same confidence. */
  ghost predicate Surer(boxes: seq<D.Box>, more: seq<D.Box>) {
    && |boxes| == |more|
    && forall j :: 0 <= j < |boxes| ==>
         more[j] == boxes[j].(confidence := more[j].confidence) && boxes[j].confidence <= more[j].confidence
  }

  ghost predicate SurerModel(images: seq<ImageId>, model: Model, more: Model) {
    forall i :: i in images ==> Surer(model(i), more(i))
  }

  /** Rows that agree except that the severities and confidences of the second may be higher. */
  ghost predicate RowsWorse(rows: seq<DetectionRow>, more: seq<DetectionRow>) {
    && |rows| == |more|
    && forall k :: 0 <= k < |rows| ==> RowWorse(rows[k], more[k])
  }

  ghost predicate RowWorse(r: DetectionRow, s: DetectionRow) {
    && s.image == r.image && s.found.code == r.found.code
    && s.found.width == r.found.width && s.found.height == r.found.height
    && r.found.severity <= s.found.severity
  }

  lemma SeverityRises(c: real, c': real, area: real)
    requires c <= c'
    ensures D.ProvisionalSeverity(c, area) <= D.ProvisionalSeverity(c', area)
  {
    hide Round4;
    Round4Monotone(Min(1.0, 0.4 * c + 0.6 * Min(1.0, area * 10.0)), Min(1.0, 0.4 * c' + 0.6 * Min(1.0, area * 10.0)));
  }

  lemma FoundRises(b: D.Box, b': D.Box)
    requires b' == b.(confidence := b'.confidence) && b.confidence <= b'.confidence
    ensures
      var f, f' := D.ToFound(b), D.ToFound(b');
      f'.code == f.code && f'.width == f.width && f'.height == f.height && f.severity <= f'.severity
  {
    hide D.ProvisionalSeverity, Round4, D.ClampSize, D.RelativeArea;
    SeverityRises(b.confidence, b'.confidence, D.RelativeArea(D.ClampSize(b.w), D.ClampSize(b.h)));
  }

  lemma {:induction false} KnownRises(image: ImageId, boxes: seq<D.Box>, more: seq<D.Box>, types: map<Code, real>)
    requires Surer(boxes, more)
    ensures RowsWorse(Known(image, boxes, types), Known(image, more, types))
  {
    hide D.ToFound;
    if boxes != [] {
      var n := |boxes| - 1;
      KnownRises(image, boxes[..n], more[..n], types);
      FoundRises(boxes[n], more[n]);
    }
  }

  lemma {:induction false} CollectedRises(images: seq<ImageId>, model: Model, more: Model, types: map<Code, real>)
    requires SurerModel(images, model, more)
    ensures RowsWorse(Collected(images, model, types), Collected(images, more, types))
  {
    hide Known, Surer, RowWorse;
    if images != [] {
      var n := |images| - 1;
      CollectedRises(images[..n], model, more, types);
      KnownRises(images[n], model(images[n]), more(images[n]), types);
    }
  }

  lemma InputsRise(images: seq<ImageId>, model: Model, more: Model, types: map<Code, real>)
    requires SurerModel(images, model, more)
    ensures Worse(RunInputs(images, model, types), RunInputs(images, more, types))
  {
    hide Collected, D.RelativeArea;
    CollectedRises(images, model, more, types);
    CollectedWellFormed(images, model, types);
    CollectedWellFormed(images, more, types);
    var rows, rows' := Collected(images, model, types), Collected(images, more, types);
    assert forall k :: 0 <= k < |rows| ==> RowWorse(rows[k], rows'[k]);
  }

  /**
   Raising the confidence of any boxes never raises the stored score, through every clamp and rounding of
   the chain; and when the stored score falls into a worse seeded band, the strategy is at least as heavy
   and the deadline strictly shorter, whatever the dominant type becomes.
   */
  lemma EndToEnd(images: seq<ImageId>, model: Model, more: Model, types: map<Code, real>)
    requires ValidRun(images, model, types) && SurerModel(images, model, more)
    ensures
      var a, b := AnalysisOf(images, model, types), AnalysisOf(images, more, types);
      && b.pci.score <= a.pci.score
      && b.total == a.total
      && Evaluate(SEEDS, ContextOf(a)).Ok? && Evaluate(SEEDS, ContextOf(b)).Ok?
      && (BandOf(b.pci.score) != BandOf(a.pci.score) ==>
           var x, y := Evaluate(SEEDS, ContextOf(a)).value, Evaluate(SEEDS, ContextOf(b)).value;
           && Heaviness(y.strategy) >= Heaviness(x.strategy)
           && y.deadlineDays.Some? && x.deadlineDays.Some? && y.deadlineDays.value < x.deadlineDays.value)
  {
    hide AllInRange, WeightsNonNegative, OnImages, RunInputs, StoredScore, RawScore, Score, Breakdown, DominantOf,
         Collected, Evaluate, MeanConfidence, Worse, RowWorse;
    var ds, es := RunInputs(images, model, types), RunInputs(images, more, types);
    var a, b := AnalysisOf(images, model, types), AnalysisOf(images, more, types);
    EngineAccepts(images, model, types);
    InputsShape(images, model, types);
    InputsRise(images, model, more, types);
    CollectedRises(images, model, more, types);
    SeverityMonotone(ds, es, |images|);
    SeedsTotal(ContextOf(a));
    SeedsTotal(ContextOf(b));
    if BandOf(b.pci.score) != BandOf(a.pci.score) {
      SeedsOrdered(ContextOf(b), ContextOf(a));
    }
  }

  // ---- Clean images

  lemma {:induction false} CleanCollected(images: seq<ImageId>, extra: seq<ImageId>, model: Model, types: map<Code, real>)
    requires forall i :: i in extra ==> model(i) == []
    ensures Collected(images + extra, model, types) == Collected(images, model, types)
  {
    if extra == [] {
      assert images + extra == images;
    } else {
      var n := |extra| - 1;
      CleanCollected(images, extra[..n], model, types);
      assert (images + extra)[..|images + extra| - 1] == images + extra[..n];
      assert extra[n] in extra;
    }
  }

  /**
   Surveying more images that show no damage never lowers the stored score, never worsens a level, and leaves
   the detections and their mean confidence alone.
   */
  lemma CleanImagesNeverHurt(images: seq<ImageId>, extra: seq<ImageId>, model: Model, types: map<Code, real>)
    requires ValidRun(images, model, types) && forall i :: i in extra ==> model(i) == []
    ensures
      var a, b := AnalysisOf(images, model, types), AnalysisOf(images + extra, model, types);
      && a.pci.score <= b.pci.score && b.rows == a.rows && b.confidence == a.confidence
      && SeverityRank(b.pci.severity) <= SeverityRank(a.pci.severity)
      && PriorityRank(b.pci.priority) <= PriorityRank(a.pci.priority)
  {
    hide AllInRange, WeightsNonNegative, OnImages, StoredScore, Score, Breakdown, DominantOf, Collected,
         MeanConfidence, ClassifySeverity, ClassifyPriority, SeverityRank, PriorityRank;
    CleanCollected(images, extra, model, types);
    EngineAccepts(images, model, types);
    InputsShape(images, model, types);
    Dilution(RunInputs(images, model, types), |images|, |images + extra|);
  }
}

/**
 One analysis from request to results. A run replaces whatever results its inspection had and touches no other
 inspection, so running again changes nothing; left alone, the interleaved steps of a run are exactly the
 worker's sequential program; and an accepted request ends with a finished, decided inspection.
 */
module AnalysisRun {
  import opened Wrappers
  import opened Ordering
  import opened PciEngine
  import opened RuleEngine
  import opened SeedRules
  import W = AnalysisWorker
  import opened InspectionStore
  import opened Lifecycle
  import L = LifecycleLaws
  import D = Detector
  import opened DecisionChain

  // ---- What a run leaves in the tables

  /** The result rows of an inspection are those of one analysis, and no others. */
  ghost predicate Stores(db: Db, id: Id, base: RowId, a: W.Analysis) {
    && DetectionsOf(db, id) == Range(base, |a.rows|)
    && (forall k :: k in Range(base, |a.rows|) ==> k in db.detections && db.detections[k] == a.rows[k - base])
    && ScoresOf(db, id) == {base} && base in db.scores
    && db.scores[base] == ScoreRow(id, a.pci.score, a.pci.severity, a.pci.priority)
    && SummariesOf(db, id) == {base} && base in db.summaries
    && db.summaries[base] == SummaryRow(id, a.total, a.dominant, a.pci.severity, a.confidence)
  }

  ghost predicate SameResults(db: Db, db': Db, i: Id) {
    && DetectionsOf(db', i) == DetectionsOf(db, i)
    && (forall d :: d in DetectionsOf(db, i) ==> db'.detections[d] == db.detections[d])
    && ScoresOf(db', i) == ScoresOf(db, i) && (forall k :: k in ScoresOf(db, i) ==> db'.scores[k] == db.scores[k])
    && SummariesOf(db', i) == SummariesOf(db, i)
    && (forall k :: k in SummariesOf(db, i) ==> db'.summaries[k] == db.summaries[k])
  }

  lemma NewDetections(db: Db, id: Id, images: seq<ImageId>, base: RowId, a: W.Analysis, k: RowId)
    requires Linked(db) && Elements(images) == ImagesOf(db, id) && OwnRows(db, id, a.rows) && FreshIds(db, base, |a.rows|)
    ensures
      var db' := WithResults(db, id, ToDrop(db, id, images), base, a);
      && (k in db'.detections <==> k in Range(base, |a.rows|) || (k in db.detections && k !in DetectionsOf(db, id)))
      && (k in Range(base, |a.rows|) ==> db'.detections[k] == a.rows[k - base])
      && (k in db.detections && k !in DetectionsOf(db, id) ==> db'.detections[k] == db.detections[k])
  {
    var drop := ToDrop(db, id, images).detections;
    InsertedRows(db.detections - drop, base, a.rows, k);
    if k in db.detections {
      assert db.detections[k].image in images <==> db.detections[k].image in Elements(images);
      assert k in drop <==> k in DetectionsOf(db, id);
    }
  }

  lemma NewDetectionsOf(db: Db, id: Id, images: seq<ImageId>, base: RowId, a: W.Analysis, i: Id)
    requires Linked(db) && Elements(images) == ImagesOf(db, id) && OwnRows(db, id, a.rows) && FreshIds(db, base, |a.rows|)
    ensures
      var db' := WithResults(db, id, ToDrop(db, id, images), base, a);
      && DetectionsOf(db', i) == (if i == id then Range(base, |a.rows|) else DetectionsOf(db, i))
      && (i != id ==> forall d :: d in DetectionsOf(db, i) ==> d in db'.detections && db'.detections[d] == db.detections[d])
      && Linked(db')
  {
    hide ToDrop, FreshIds, Inserted, ScoresOf, SummariesOf, Range, WithResults;
    var db' := WithResults(db, id, ToDrop(db, id, images), base, a);
    ResultsFrame(db, id, ToDrop(db, id, images), base, a);
    RangeBounds(base, |a.rows|);
    forall k: RowId
      ensures k in db'.detections <==> k in Range(base, |a.rows|) || (k in db.detections && k !in DetectionsOf(db, id))
      ensures k in Range(base, |a.rows|) ==> db'.detections[k] == a.rows[k - base]
      ensures k in db.detections && k !in DetectionsOf(db, id) ==> db'.detections[k] == db.detections[k]
    {
      NewDetections(db, id, images, base, a, k);
    }
    FreshDetections(db, base, |a.rows|);
  }

  lemma ResultsFrame(db: Db, id: Id, drop: Dropped, base: RowId, a: W.Analysis)
    ensures WithResults(db, id, drop, base, a).images == db.images && WithResults(db, id, drop, base, a).rows == db.rows
  {
    hide Inserted;
  }

  lemma RangeBounds(base: RowId, n: nat)
    ensures forall k :: k in Range(base, n) <==> base <= k < base + n
  {
  }

  lemma FreshDetections(db: Db, base: RowId, n: nat)
    requires FreshIds(db, base, n)
    ensures forall k :: k in Range(base, n) ==> k !in db.detections
  {
  }

  lemma NewRowsOf(db: Db, id: Id, images: seq<ImageId>, base: RowId, a: W.Analysis, i: Id)
    requires FreshIds(db, base, |a.rows|)
    ensures
      var db' := WithResults(db, id, ToDrop(db, id, images), base, a);
      && ScoresOf(db', i) == (if i == id then {base} else ScoresOf(db, i))
      && SummariesOf(db', i) == (if i == id then {base} else SummariesOf(db, i))
      && (i != id ==> forall k :: k in ScoresOf(db, i) ==> k in db'.scores && db'.scores[k] == db.scores[k])
      && (i != id ==> forall k :: k in SummariesOf(db, i) ==> k in db'.summaries && db'.summaries[k] == db.summaries[k])
  {
    hide Inserted;
  }

  lemma OwnStored(db: Db, id: Id, images: seq<ImageId>, base: RowId, a: W.Analysis)
    requires Linked(db) && Elements(images) == ImagesOf(db, id) && OwnRows(db, id, a.rows) && FreshIds(db, base, |a.rows|)
    ensures Stores(WithResults(db, id, ToDrop(db, id, images), base, a), id, base, a)
  {
    hide ToDrop, FreshIds, OwnRows, Linked, ImagesOf, DetectionsOf, ScoresOf, SummariesOf, Inserted, Range;
    var db' := WithResults(db, id, ToDrop(db, id, images), base, a);
    NewDetectionsOf(db, id, images, base, a, id);
    NewRowsOf(db, id, images, base, a, id);
    forall k | k in Range(base, |a.rows|) ensures k in db'.detections && db'.detections[k] == a.rows[k - base] {
      NewDetections(db, id, images, base, a, k);
    }
  }

  lemma OthersKept(db: Db, id: Id, images: seq<ImageId>, base: RowId, a: W.Analysis, i: Id)
    requires Linked(db) && Elements(images) == ImagesOf(db, id) && OwnRows(db, id, a.rows) && FreshIds(db, base, |a.rows|)
    ensures
      var db' := WithResults(db, id, ToDrop(db, id, images), base, a);
      Linked(db') && (i != id ==> SameResults(db, db', i))
  {
    hide ToDrop, FreshIds, OwnRows, Linked, ImagesOf, DetectionsOf, ScoresOf, SummariesOf, Inserted, Range, WithResults;
    NewDetectionsOf(db, id, images, base, a, i);
    NewRowsOf(db, id, images, base, a, i);
  }

  lemma StoresSame(db: Db, db': Db, id: Id, base: RowId, a: W.Analysis, i: Id, before: Db)
    requires db' == db.(rows := db'.rows) && Stores(db, id, base, a)
    ensures Stores(db', id, base, a) && (SameResults(before, db, i) ==> SameResults(before, db', i))
  {
    SameTables(db, db', id);
    SameTables(db, db', i);
  }

  // ---- Running, and running again

  /** An inspection with the listing of its images, and ids for the new rows. */
  ghost predicate Ready(
    db: Db, id: Id, images: seq<ImageId>, model: W.Model, types: map<Code, real>, base: RowId)
  {
    && Linked(db) && id in db.rows
    && Distinct(images) && Elements(images) == ImagesOf(db, id) && images != []
    && FreshIds(db, base, |W.Collected(images, model, types)|)
    && AllInRange(W.RunInputs(images, model, types))
  }

  /** A run finishes its inspection with the results of its own analysis, whatever was stored before. */
  lemma RunReplaces(
    db: Db, id: Id, images: seq<ImageId>, model: W.Model, types: map<Code, real>, base: RowId, now: nat, i: Id)
    requires Ready(db, id, images, model, types, base)
    ensures
      var db' := RunOf(db, id, images, Some(model), types, base, now);
      && Stores(db', id, base, W.AnalysisOf(images, model, types))
      && id in db'.rows && db'.rows[id].status == TERMINEE
      && db'.rows[id] == Updated(db.rows[id], SetStatus(TERMINEE), now)
      && db'.images == db.images && Linked(db')
      && (i != id ==> SameResults(db, db', i) && (i in db.rows ==> i in db'.rows && db'.rows[i] == db.rows[i]))
  {
    hide PciOf, W.DominantOf, W.MeanConfidence, W.RunInputs, W.Collected, AllInRange, FreshIds, OwnRows, Stores,
         SameResults, ToDrop, Inserted, ImagesOf, Distinct, Updated;
    var a := W.AnalysisOf(images, model, types);
    OwnCollected(db, id, images, model, types);
    OwnStored(db, id, images, base, a);
    OthersKept(db, id, images, base, a, i);
    var stored := WithResults(db, id, ToDrop(db, id, images), base, a);
    var db' := RunOf(db, id, images, Some(model), types, base, now);
    FinishedRow(db.rows[id], now);
    StoresSame(stored, db', id, base, a, i, db);
  }

  lemma FinishedRow(row: Row, now: nat)
    ensures Updated(row, SetStatus(TERMINEE), now).status == TERMINEE
    ensures row.status == TERMINEE ==> Updated(row, SetStatus(TERMINEE), now) == row
    ensures row.status != TERMINEE ==> Updated(row, SetStatus(TERMINEE), now).version == row.version + 1
  {
  }

  lemma SameListing(a: seq<ImageId>, b: seq<ImageId>)
    requires Distinct(a) && Distinct(b) && Elements(a) == Elements(b)
    ensures multiset(a) == multiset(b)
  {
    DistinctMultiset(a);
    DistinctMultiset(b);
    forall x ensures multiset(a)[x] == multiset(b)[x] {
      assert x in a <==> x in Elements(a);
      assert x in b <==> x in Elements(b);
      assert x in multiset(a) <==> x in a;
      assert x in multiset(b) <==> x in b;
    }
  }

  /**
   Running again, on the same images in any order, stores the same score, the same summary and the same
   detections under new ids, and leaves the row and its version alone.
   */
  lemma RerunChangesNothing(
    db: Db, id: Id, images: seq<ImageId>, model: W.Model, types: map<Code, real>, base: RowId, now: nat,
    again: seq<ImageId>, base': RowId, later: nat)
    requires Ready(db, id, images, model, types, base)
    requires Ready(RunOf(db, id, images, Some(model), types, base, now), id, again, model, types, base')
    ensures
      var once := RunOf(db, id, images, Some(model), types, base, now);
      var twice := RunOf(once, id, again, Some(model), types, base', later);
      var a, b := W.AnalysisOf(images, model, types), W.AnalysisOf(again, model, types);
      && Stores(once, id, base, a) && Stores(twice, id, base', b)
      && multiset(b.rows) == multiset(a.rows) && b.(rows := []) == a.(rows := [])
      && twice.rows == once.rows
  {
    hide PciOf, W.DominantOf, W.MeanConfidence, W.RunInputs, W.Collected, AllInRange, FreshIds, Stores, SameResults,
         ImagesOf, Distinct, Linked, Elements, Updated, RunOf;
    var once := RunOf(db, id, images, Some(model), types, base, now);
    var twice := RunOf(once, id, again, Some(model), types, base', later);
    RunReplaces(db, id, images, model, types, base, now, id);
    RunReplaces(once, id, again, model, types, base', later, id);
    ImagesSame(db, once, id);
    SameListing(images, again);
    W.ImageOrderIrrelevant(images, again, model, types);
    FinishedRow(once.rows[id], later);
    forall i | i in once.rows ensures i in twice.rows && twice.rows[i] == once.rows[i] {
      RunReplaces(once, id, again, model, types, base', later, i);
    }
    RunKeys(once, id, again, model, types, base', later);
  }

  lemma ImagesSame(db: Db, db': Db, id: Id)
    requires db'.images == db.images
    ensures ImagesOf(db', id) == ImagesOf(db, id)
  {
  }

  lemma RunKeys(db: Db, id: Id, images: seq<ImageId>, model: W.Model, types: map<Code, real>, base: RowId, now: nat)
    ensures RunOf(db, id, images, Some(model), types, base, now).rows.Keys == db.rows.Keys
  {
    hide Analysable, W.AnalysisOf, ToDrop, Updated, Inserted;
  }

  // ---- The interleaved steps, when nothing comes in between

  /** The steps of one run that the engine accepts, or of one that meets a failure. */
  ghost function AloneSteps(
    r: RunId, images: seq<ImageId>, detector: Option<W.Model>, types: map<Code, real>, base: RowId, now: nat): seq<Step>
  {
    var failure := [MarkError(r, now)];
    if detector.None? then [StartRun(r, images)] + ([FailRun(r)] + failure)
    else if Analysable(images, detector, types) then
      [StartRun(r, images)] + [ClearRun(r), CommitRun(r, base, detector.value, types, now)]
    else
      [StartRun(r, images)] + ([ClearRun(r), CommitRun(r, base, detector.value, types, now)] + failure)
  }

  lemma StartAlone(w: World, r: RunId, images: seq<ImageId>)
    requires Inv(w) && Enabled(w, StartRun(r, images))
    ensures images != [] && r in w.runs
    ensures Next(w, StartRun(r, images)) == w.(runs := w.runs[r := Working(w.runs[r].id, EN_COURS, images)])
    ensures w.runs[r].id in w.db.rows && w.db.rows[w.runs[r].id].status == EN_COURS
  {
    hide Inv, Linked, CallSound, Agree, Live;
    StartKeeps(w, r, images);
    InvExclusive(w);
    LiveRow(w, r);
  }

  lemma InvExclusive(w: World)
    requires Inv(w)
    ensures Exclusive(w)
  {
  }

  lemma FailAlone(w: World, r: RunId, now: nat)
    requires r in w.runs
    ensures
      var failed := w.(runs := w.runs[r := Failed(w.runs[r].id)]);
      && Runs(failed, [MarkError(r, now)])
      && After(failed, [MarkError(r, now)]) == World(Touch(w.db, w.runs[r].id, SetStatus(ERREUR), now), w.calls, w.runs - {r})
  {
    hide Touch;
    var failed := w.(runs := w.runs[r := Failed(w.runs[r].id)]);
    assert failed.runs - {r} == w.runs - {r};
    var last := MarkError(r, now);
    assert Runs(Next(failed, last), []);
    RunsCons(failed, last, []);
    assert [last] + [] == [last];
  }

  /** A run whose steps nothing interrupts does to the tables exactly what the worker's program does. */
  lemma AloneIsSequential(
    w: World, r: RunId, images: seq<ImageId>, detector: Option<W.Model>, types: map<Code, real>, base: RowId, now: nat)
    requires Inv(w) && Enabled(w, StartRun(r, images))
    requires detector.Some? ==> FreshIds(w.db, base, |W.Collected(images, detector.value, types)|)
    ensures Runs(w, AloneSteps(r, images, detector, types, base, now))
    ensures
      After(w, AloneSteps(r, images, detector, types, base, now)) ==
      World(RunOf(w.db, w.runs[r].id, images, detector, types, base, now), w.calls, w.runs - {r})
  {
    hide Inv, Next, Enabled, Runs, After, RunOf, Analysable, FreshIds, W.Collected, Touch;
    StartAlone(w, r, images);
    var v := Next(w, StartRun(r, images));
    assert v.runs - {r} == w.runs - {r};
    RunOfCases(w.db, w.runs[r].id, images, detector, types, base, now);
    if detector.None? {
      FailedSteps(v, r, now);
      assert [FailRun(r)] + [MarkError(r, now)] == [FailRun(r), MarkError(r, now)];
      RunsCons(w, StartRun(r, images), [FailRun(r), MarkError(r, now)]);
    } else {
      ClearedSteps(v, r, detector.value, types, base, now);
      var both := [ClearRun(r), CommitRun(r, base, detector.value, types, now)];
      var rest := if Analysable(images, detector, types) then [] else [MarkError(r, now)];
      assert both + [] == both;
      RunsCons(w, StartRun(r, images), both + rest);
    }
  }

  lemma RunOfCases(
    db: Db, id: Id, images: seq<ImageId>, detector: Option<W.Model>, types: map<Code, real>, base: RowId, now: nat)
    requires id in db.rows
    ensures detector.None? ==> !Analysable(images, detector, types)
    ensures Analysable(images, detector, types) ==> images != []
    ensures Analysable(images, detector, types) ==>
      RunOf(db, id, images, detector, types, base, now) ==
      WithAnalysis(db, id, db.rows[id].status, ToDrop(db, id, images), base, W.AnalysisOf(images, detector.value, types), now)
    ensures !Analysable(images, detector, types) ==>
      RunOf(db, id, images, detector, types, base, now) == Touch(db, id, SetStatus(ERREUR), now)
  {
  }

  lemma FailedSteps(v: World, r: RunId, now: nat)
    requires r in v.runs && v.runs[r].Working?
    ensures Runs(v, [FailRun(r), MarkError(r, now)])
    ensures After(v, [FailRun(r), MarkError(r, now)]) ==
      World(Touch(v.db, v.runs[r].id, SetStatus(ERREUR), now), v.calls, v.runs - {r})
  {
    hide Runs, After, Touch;
    FailAlone(v, r, now);
    RunsCons(v, FailRun(r), [MarkError(r, now)]);
    assert [FailRun(r)] + [MarkError(r, now)] == [FailRun(r), MarkError(r, now)];
  }

  /** Clearing and committing in one go: the deletes cover every old result, so no unique constraint objects. */
  lemma ClearedSteps(v: World, r: RunId, model: W.Model, types: map<Code, real>, base: RowId, now: nat)
    requires r in v.runs && v.runs[r].Working? && v.runs[r].loaded == EN_COURS && v.runs[r].images != []
    requires FreshIds(v.db, base, |W.Collected(v.runs[r].images, model, types)|)
    ensures
      var run := v.runs[r];
      var good := Analysable(run.images, Some(model), types);
      var steps := [ClearRun(r), CommitRun(r, base, model, types, now)] + if good then [] else [MarkError(r, now)];
      && Runs(v, steps)
      && After(v, steps) == World(
           if good then
             WithAnalysis(v.db, run.id, EN_COURS, ToDrop(v.db, run.id, run.images), base, W.AnalysisOf(run.images, model, types), now)
           else Touch(v.db, run.id, SetStatus(ERREUR), now),
           v.calls, v.runs - {r})
  {
    hide Runs, After, Touch, WithAnalysis, FreshIds, W.Collected, AllInRange, W.RunInputs, W.AnalysisOf;
    var run := v.runs[r];
    var clear, commit := ClearRun(r), CommitRun(r, base, model, types, now);
    var cleared := v.(runs := v.runs[r := Cleared(run.id, run.loaded, run.images, ToDrop(v.db, run.id, run.images))]);
    assert Next(v, clear) == cleared;
    assert cleared.runs - {r} == v.runs - {r};
    var good := Analysable(run.images, Some(model), types);
    var rest := if good then [] else [MarkError(r, now)];
    if good {
      NoRuns(Next(cleared, commit));
    } else {
      assert Next(cleared, commit) == v.(runs := v.runs[r := Failed(run.id)]);
      FailAlone(v, r, now);
    }
    RunsCons(cleared, commit, rest);
    RunsCons(v, clear, [commit] + rest);
    assert [clear] + ([commit] + rest) == [clear, commit] + rest;
  }

  lemma NoRuns(w: World)
    ensures Runs(w, []) && After(w, []) == w
  {
  }

  // ---- From request to decision

  lemma GrantAlone(w: World, c: CallId, r: RunId, id: Id, now: nat)
    requires c !in w.calls && r !in w.runs && RequestCheck(w.db, id).Ok?
    ensures Enabled(w, BeginRequest(c, id))
    ensures
      var v := Next(w, BeginRequest(c, id));
      && Enabled(v, EndRequest(c, r, now))
      && Next(v, EndRequest(c, r, now)) == World(Touch(w.db, id, SetStatus(EN_COURS), now), w.calls, w.runs[r := Queued(id)])
  {
    hide Touch, ImagesOf;
    var v := Next(w, BeginRequest(c, id));
    assert v.calls - {c} == w.calls;
  }

  lemma GrantedRow(db: Db, id: Id, now: nat)
    requires RequestCheck(db, id).Ok?
    ensures
      var v := Touch(db, id, SetStatus(EN_COURS), now);
      && id in db.rows && id in v.rows && v.rows[id].status == EN_COURS && v.rows[id].version == db.rows[id].version + 1
      && v == db.(rows := v.rows)
  {
  }

  /** A request that passes its checks, and its run, with nothing in between. */
  function RequestSteps(c: CallId, r: RunId, id: Id, now: nat, run: seq<Step>): seq<Step> {
    [BeginRequest(c, id)] + ([EndRequest(c, r, now)] + run)
  }

  lemma RequestThenRun(
    w: World, c: CallId, r: RunId, id: Id, images: seq<ImageId>, model: W.Model, types: map<Code, real>,
    base: RowId, now: nat, later: nat)
    requires Inv(w) && c !in w.calls && r !in w.runs && RequestCheck(w.db, id).Ok?
    requires ValidRun(images, model, types) && Elements(images) == ImagesOf(w.db, id)
    requires FreshIds(w.db, base, |W.Collected(images, model, types)|) && AllInRange(W.RunInputs(images, model, types))
    ensures
      var steps := RequestSteps(c, r, id, now, AloneSteps(r, images, Some(model), types, base, later));
      var granted := Touch(w.db, id, SetStatus(EN_COURS), now);
      && Ready(granted, id, images, model, types, base)
      && Runs(w, steps)
      && After(w, steps) == World(RunOf(granted, id, images, Some(model), types, base, later), w.calls, w.runs)
  {
    hide Inv, Next, Enabled, Runs, After, RunOf, FreshIds, W.Collected, W.RunInputs, AllInRange, ValidRun,
         ImagesOf, RequestCheck, AloneSteps, Touch, Ready, Elements;
    var begin, end := BeginRequest(c, id), EndRequest(c, r, now);
    GrantAlone(w, c, r, id, now);
    GrantedRow(w.db, id, now);
    var asked := Next(w, begin);
    StepKeeps(w, begin);
    StepKeeps(asked, end);
    var granted := Next(asked, end);
    MayStart(w, granted, r, id, images, model, types, base);
    AloneIsSequential(granted, r, images, Some(model), types, base, later);
    assert granted.runs - {r} == w.runs;
    var run := AloneSteps(r, images, Some(model), types, base, later);
    RunsCons(asked, end, run);
    RunsCons(w, begin, [end] + run);
  }

  /** A whole undisturbed request, from its read to the last write of its run. */
  ghost function WholeRequest(
    c: CallId, r: RunId, id: Id, images: seq<ImageId>, model: W.Model, types: map<Code, real>,
    base: RowId, now: nat, later: nat): seq<Step>
  {
    RequestSteps(c, r, id, now, AloneSteps(r, images, Some(model), types, base, later))
  }

  /** From w to v one inspection was analysed: TERMINEE two versions on, with its results, and nothing left over. */
  ghost predicate Analysed(w: World, v: World, id: Id, base: RowId, a: W.Analysis) {
    && v.calls == w.calls && v.runs == w.runs
    && id in w.db.rows && id in v.db.rows
    && v.db.rows[id].status == TERMINEE && v.db.rows[id].version == w.db.rows[id].version + 2
    && Stores(v.db, id, base, a)
  }

  lemma RequestEnds(
    w: World, c: CallId, r: RunId, id: Id, images: seq<ImageId>, model: W.Model, types: map<Code, real>,
    base: RowId, now: nat, later: nat)
    requires Inv(w) && c !in w.calls && r !in w.runs && RequestCheck(w.db, id).Ok?
    requires ValidRun(images, model, types) && Elements(images) == ImagesOf(w.db, id)
    requires FreshIds(w.db, base, |W.Collected(images, model, types)|)
    ensures Runs(w, WholeRequest(c, r, id, images, model, types, base, now, later))
    ensures
      Analysed(w, After(w, WholeRequest(c, r, id, images, model, types, base, now, later)), id, base,
        W.AnalysisOf(images, model, types))
  {
    hide *;
    EveryRunDecides(images, model, types);
    RequestThenRun(w, c, r, id, images, model, types, base, now, later);
    GrantedRow(w.db, id, now);
    var granted := Touch(w.db, id, SetStatus(EN_COURS), now);
    RunReplaces(granted, id, images, model, types, base, later, id);
    FinishedRow(granted.rows[id], later);
    WholeIs(c, r, id, images, model, types, base, now, later);
    SomeImages(images, model, types);
    AnalysedIs(w, After(w, WholeRequest(c, r, id, images, model, types, base, now, later)), id, base,
      W.AnalysisOf(images, model, types));
  }

  lemma SomeImages(images: seq<ImageId>, model: W.Model, types: map<Code, real>)
    requires ValidRun(images, model, types)
    ensures images != []
  {
  }

  lemma WholeIs(
    c: CallId, r: RunId, id: Id, images: seq<ImageId>, model: W.Model, types: map<Code, real>,
    base: RowId, now: nat, later: nat)
    ensures WholeRequest(c, r, id, images, model, types, base, now, later)
         == RequestSteps(c, r, id, now, AloneSteps(r, images, Some(model), types, base, later))
  {
  }

  lemma AnalysedIs(w: World, v: World, id: Id, base: RowId, a: W.Analysis)
    ensures Analysed(w, v, id, base, a) <==>
      && v.calls == w.calls && v.runs == w.runs
      && id in w.db.rows && id in v.db.rows
      && v.db.rows[id].status == TERMINEE && v.db.rows[id].version == w.db.rows[id].version + 2
      && Stores(v.db, id, base, a)
  {
    hide Stores;
  }

  /**
   From any reachable world, a request that passes its checks and a run that nothing disturbs end with the
   inspection TERMINEE, two versions on, holding exactly the results of its analysis, no run or call left over,
   and a decision by a seeded rule.
   */
  lemma RequestedAndDecided(
    w: World, c: CallId, r: RunId, id: Id, images: seq<ImageId>, model: W.Model, types: map<Code, real>,
    base: RowId, now: nat, later: nat)
    requires Inv(w) && c !in w.calls && r !in w.runs && RequestCheck(w.db, id).Ok?
    requires ValidRun(images, model, types) && Elements(images) == ImagesOf(w.db, id)
    requires FreshIds(w.db, base, |W.Collected(images, model, types)|)
    ensures
      var steps := WholeRequest(c, r, id, images, model, types, base, now, later);
      var a := W.AnalysisOf(images, model, types);
      && Runs(w, steps) && Analysed(w, After(w, steps), id, base, a)
      && Evaluate(SEEDS, ContextOf(a)).Ok? && Evaluate(SEEDS, ContextOf(a)).value.ruleCode != "FALLBACK"
  {
    hide *;
    RequestEnds(w, c, r, id, images, model, types, base, now, later);
    EveryRunDecides(images, model, types);
  }

  lemma MayStart(
    w: World, v: World, r: RunId, id: Id, images: seq<ImageId>, model: W.Model, types: map<Code, real>, base: RowId)
    requires Inv(v) && r in v.runs && v.runs[r] == Queued(id) && id in v.db.rows && v.db == w.db.(rows := v.db.rows)
    requires ValidRun(images, model, types) && Elements(images) == ImagesOf(w.db, id)
    requires FreshIds(w.db, base, |W.Collected(images, model, types)|) && AllInRange(W.RunInputs(images, model, types))
    ensures Enabled(v, StartRun(r, images))
    ensures Ready(v.db, id, images, model, types, base)
    ensures FreshIds(v.db, base, |W.Collected(images, model, types)|)
  {
    hide Exclusive, Agree, CallSound, RunSound, W.Collected, W.RunInputs, AllInRange;
  }

  // ---- A live run can always end

  /** Whatever image it is given, the model predicts boxes with confidences in [0, 1]. */
  ghost predicate AlwaysConfident(model: W.Model) {
    forall i :: forall j :: 0 <= j < |model(i)| ==> D.Confident(model(i)[j])
  }

  lemma FreshBase(db: Db, n: nat) returns (base: RowId)
    ensures FreshIds(db, base, n)
  {
    base := L.FreshCall(db.detections.Keys + db.scores.Keys + db.summaries.Keys);
  }

  function StageOf(run: Run): nat {
    match run
    case Queued(_) => 3
    case Working(_, _, _) => 2
    case Cleared(_, _, _, _) => 1
    case Failed(_) => 1
  }

  lemma MarkEnds(w: World, r: RunId)
    requires Inv(w) && r in w.runs && w.runs[r].Failed?
    ensures Enabled(w, MarkError(r, 0))
    ensures
      var v, id := Next(w, MarkError(r, 0)), w.runs[r].id;
      v.calls == w.calls && v.runs == w.runs - {r} && id in v.db.rows && v.db.rows[id].status == ERREUR
  {
    hide Linked, CallSound, Agree, Live, RunSound, Touch;
    LiveRow(w, r);
    TouchOneRow(w.db, w.runs[r].id, SetStatus(ERREUR), 0);
  }

  lemma CommitEnds(w: World, r: RunId, base: RowId, model: W.Model, types: map<Code, real>)
    requires Inv(w) && r in w.runs && w.runs[r].Cleared? && AlwaysConfident(model)
    requires FreshIds(w.db, base, |W.Collected(w.runs[r].images, model, types)|)
    ensures Enabled(w, CommitRun(r, base, model, types, 0))
    ensures
      var v, id := Next(w, CommitRun(r, base, model, types, 0)), w.runs[r].id;
      v.calls == w.calls && v.runs == w.runs - {r} && id in v.db.rows && v.db.rows[id].status == TERMINEE
  {
    hide Linked, CallSound, Agree, Live, Touch, FreshIds, W.Collected, AllInRange, W.RunInputs, PciOf, W.DominantOf,
         W.MeanConfidence, BreaksUnique, ImagesOf, ToDrop, Inserted, D.Confident;
    var run := w.runs[r];
    assert RunSound(w.db, run);
    LiveRow(w, r);
    W.EngineAccepts(run.images, model, types);
    NeverBreaksUnique(w, r);
    var stored := WithResults(w.db, run.id, run.drop, base, W.AnalysisOf(run.images, model, types));
    TouchOneRow(stored, run.id, SetStatus(TERMINEE), 0);
  }

  /**
   From every sound world, whatever stage a live run is in, some steps of its own bring it to its last write and
   free its inspection: in TERMINEE with any confident model, in ERREUR once it has failed.
   */
  lemma {:induction false} RunCanEnd(w: World, r: RunId, model: W.Model, types: map<Code, real>) returns (steps: seq<Step>)
    requires Inv(w) && r in w.runs && AlwaysConfident(model)
    ensures Runs(w, steps)
    ensures
      var v, id := After(w, steps), w.runs[r].id;
      && Inv(v) && v.calls == w.calls && v.runs == w.runs - {r} && !Live(v, id)
      && id in v.db.rows && v.db.rows[id].status == (if w.runs[r].Failed? then ERREUR else TERMINEE)
    decreases StageOf(w.runs[r])
  {
    hide Inv, Enabled, Next, Runs, After, AlwaysConfident, ImagesOf, FreshIds, Elements, Distinct, Live;
    match w.runs[r] {
      case Queued(id) =>
        var images := ListImages(w, r);
        StartAlone(w, r, images);
        steps := StepThen(w, r, StartRun(r, images), model, types);
      case Working(id, loaded, images) =>
        ClearsRun(w, r);
        steps := StepThen(w, r, ClearRun(r), model, types);
      case Cleared(id, loaded, images, drop) =>
        var base := FreshBase(w.db, |W.Collected(images, model, types)|);
        CommitEnds(w, r, base, model, types);
        steps := LastStep(w, r, CommitRun(r, base, model, types, 0));
      case Failed(id) =>
        MarkEnds(w, r);
        steps := LastStep(w, r, MarkError(r, 0));
    }
  }

  /** One step of the run, and then whatever its next stage needs. */
  lemma StepThen(w: World, r: RunId, s: Step, model: W.Model, types: map<Code, real>)
    returns (steps: seq<Step>)
    requires Inv(w) && r in w.runs && AlwaysConfident(model) && Enabled(w, s)
    requires
      var v := Next(w, s);
      && r in v.runs && v.runs == w.runs[r := v.runs[r]] && v.calls == w.calls
      && v.runs[r].id == w.runs[r].id && !v.runs[r].Failed? && StageOf(v.runs[r]) < StageOf(w.runs[r])
    ensures Runs(w, steps)
    ensures
      var v, id := After(w, steps), w.runs[r].id;
      && Inv(v) && v.calls == w.calls && v.runs == w.runs - {r} && !Live(v, id)
      && id in v.db.rows && v.db.rows[id].status == TERMINEE
    decreases StageOf(w.runs[r]), 0
  {
    hide Inv, Enabled, Next, Runs, After, AlwaysConfident, Live;
    StepKeeps(w, s);
    var rest := RunCanEnd(Next(w, s), r, model, types);
    assert Next(w, s).runs - {r} == w.runs - {r};
    RunsCons(w, s, rest);
    steps := [s] + rest;
  }

  lemma LastStep(w: World, r: RunId, s: Step) returns (steps: seq<Step>)
    requires Inv(w) && r in w.runs && Enabled(w, s)
    requires
      var v, id := Next(w, s), w.runs[r].id;
      v.calls == w.calls && v.runs == w.runs - {r} && id in v.db.rows && v.db.rows[id].status != EN_COURS
    ensures Runs(w, steps) && After(w, steps) == Next(w, s) && Inv(Next(w, s)) && !Live(Next(w, s), w.runs[r].id)
  {
    hide Inv, Enabled, Next, Runs, After;
    StepKeeps(w, s);
    InvExclusive(Next(w, s));
    NoRuns(Next(w, s));
    RunsCons(w, s, []);
    steps := [s] + [];
  }

  lemma ListImages(w: World, r: RunId) returns (images: seq<ImageId>)
    requires Inv(w) && r in w.runs && w.runs[r].Queued?
    ensures Enabled(w, StartRun(r, images))
  {
    hide Inv, ImagesOf;
    images := Listing(ImagesOf(w.db, w.runs[r].id));
  }

  lemma ClearsRun(w: World, r: RunId)
    requires r in w.runs && w.runs[r].Working?
    ensures Enabled(w, ClearRun(r))
    ensures
      var v, run := Next(w, ClearRun(r)), w.runs[r];
      && v.calls == w.calls && v.runs == w.runs[r := v.runs[r]]
      && v.runs[r] == Cleared(run.id, run.loaded, run.images, ToDrop(w.db, run.id, run.images))
  {
    hide ToDrop;
  }
}

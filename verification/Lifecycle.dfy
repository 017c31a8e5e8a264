/**
 The inspection lifecycle as interleaved steps. A service call is a read that passed its checks, then a
 write in a later step; between the two any other step may commit. A run is granted by the versioned
 write of `request_analysis`, and its transaction is a start, a clearing and one commit, or a failure,
 a rollback and the write of ERREUR. A run that never reaches its last write stays in the table of runs.
 */
module Lifecycle {
  import opened Wrappers
  import opened Ordering
  import opened PciEngine
  import W = AnalysisWorker
  import opened InspectionStore

  type CallId = nat
  type RunId = nat

  /** A call of the service between its read and its write, with the row it read. */
  datatype Call =
    | Patching(id: Id, seen: Row, expected: int, weather: Option<string>, notes: Option<string>)
    | Deleting(id: Id, seen: Row)
    | Uploading(id: Id, seen: Row)
    | Requesting(id: Id, seen: Row)

  datatype Run =
    | Queued(id: Id)
    | Working(id: Id, loaded: Status, images: seq<ImageId>)
    | Cleared(id: Id, loaded: Status, images: seq<ImageId>, drop: Dropped)
    | Failed(id: Id)

  datatype World = World(db: Db, calls: map<CallId, Call>, runs: map<RunId, Run>)

  datatype Step =
    | Create(id: Id, weather: Option<string>, notes: Option<string>, now: nat)
    | BeginPatch(call: CallId, id: Id, expected: int, weather: Option<string>, notes: Option<string>)
    | BeginDelete(call: CallId, id: Id)
    | BeginUpload(call: CallId, id: Id)
    | BeginRequest(call: CallId, id: Id)
    | EndPatch(call: CallId, now: nat)
    | EndDelete(call: CallId, now: nat)
    | EndUpload(call: CallId, image: ImageId)
    | EndRequest(call: CallId, run: RunId, now: nat)
    | Abandon(call: CallId)
    | StartRun(run: RunId, images: seq<ImageId>)
    | ClearRun(run: RunId)
    | CommitRun(run: RunId, base: RowId, model: W.Model, types: map<Code, real>, now: nat)
    | FailRun(run: RunId)
    | MarkError(run: RunId, now: nat)

  const EMPTY := World(Db(map[], map[], map[], map[], map[]), map[], map[])

  /** Fresh ids, calls and runs at the stage the step needs, and for a start a listing of the images. */
  ghost predicate Enabled(w: World, s: Step) {
    match s
    case Create(id, _, _, _) => id !in w.db.rows
    case BeginPatch(c, _, _, _, _) => c !in w.calls
    case BeginDelete(c, _) => c !in w.calls
    case BeginUpload(c, _) => c !in w.calls
    case BeginRequest(c, _) => c !in w.calls
    case EndPatch(c, _) => c in w.calls && w.calls[c].Patching?
    case EndDelete(c, _) => c in w.calls && w.calls[c].Deleting?
    case EndUpload(c, i) => c in w.calls && w.calls[c].Uploading? && i !in w.db.images
    case EndRequest(c, r, _) => c in w.calls && w.calls[c].Requesting? && r !in w.runs
    case Abandon(c) => c in w.calls
    case StartRun(r, images) =>
      r in w.runs && w.runs[r].Queued? && Distinct(images) && Elements(images) == ImagesOf(w.db, w.runs[r].id)
    case ClearRun(r) => r in w.runs && w.runs[r].Working?
    case CommitRun(r, base, model, types, _) =>
      r in w.runs && w.runs[r].Cleared? && FreshIds(w.db, base, |W.Collected(w.runs[r].images, model, types)|)
    case FailRun(r) => r in w.runs && !w.runs[r].Failed?
    case MarkError(r, _) => r in w.runs && w.runs[r].Failed?
  }

  /** A read through the repository; a row it does not return ends the call with 404. */
  function Begin(w: World, c: CallId, id: Id, call: Row -> Call): World {
    if Visible(w.db, id) then w.(calls := w.calls[c := call(w.db.rows[id])]) else w
  }

  function Done(w: World, c: CallId): World {
    w.(calls := w.calls - {c})
  }

  ghost function Next(w: World, s: Step): World
    requires Enabled(w, s)
  {
    match s
    case Create(id, weather, notes, now) =>
      w.(db := w.db.(rows := w.db.rows[id := Row(EN_ATTENTE, weather, notes, None, now, 1)]))
    case BeginPatch(c, id, expected, weather, notes) => Begin(w, c, id, row => Patching(id, row, expected, weather, notes))
    case BeginDelete(c, id) => Begin(w, c, id, row => Deleting(id, row))
    case BeginUpload(c, id) => Begin(w, c, id, row => Uploading(id, row))
    case BeginRequest(c, id) =>
      var checked := RequestCheck(w.db, id);
      if checked.Ok? then w.(calls := w.calls[c := Requesting(id, checked.value)]) else w
    case EndPatch(c, now) => EndedPatch(Done(w, c), w.calls[c], now)
    case EndDelete(c, now) => Done(w, c).(db := Touch(w.db, w.calls[c].id, SetDeleted(now), now))
    case EndUpload(c, image) => Done(w, c).(db := w.db.(images := w.db.images[image := w.calls[c].id]))
    case EndRequest(c, r, now) => EndedRequest(Done(w, c), w.calls[c], r, now)
    case Abandon(c) => Done(w, c)
    case StartRun(r, images) => w.(runs := w.runs[r := Started(w.db, w.runs[r].id, images)])
    case ClearRun(r) =>
      var run := w.runs[r];
      w.(runs := w.runs[r := Cleared(run.id, run.loaded, run.images, ToDrop(w.db, run.id, run.images))])
    case CommitRun(r, base, model, types, now) => Committed(w, r, base, model, types, now)
    case FailRun(r) => w.(runs := w.runs[r := Failed(w.runs[r].id)])
    case MarkError(r, now) =>
      World(Touch(w.db, w.runs[r].id, SetStatus(ERREUR), now), w.calls, w.runs - {r})
  }

  /** An empty body touches nothing; a stale version is a 409. */
  function EndedPatch(w: World, c: Call, now: nat): World
    requires c.Patching?
  {
    if c.weather.None? && c.notes.None? then w
    else if Current(w.db, c.id, c.expected) then
      w.(db := Touch(w.db, c.id, SetDetails(c.weather, c.notes), now))
    else w
  }

  /** The compare-and-set on the version read; success commits EN_COURS and queues the run. */
  function EndedRequest(w: World, c: Call, r: RunId, now: nat): World
    requires c.Requesting?
  {
    if Current(w.db, c.id, c.seen.version) then
      World(Touch(w.db, c.id, SetStatus(EN_COURS), now), w.calls, w.runs[r := Queued(c.id)])
    else w
  }

  function Started(db: Db, id: Id, images: seq<ImageId>): Run {
    if images == [] || id !in db.rows then Failed(id) else Working(id, db.rows[id].status, images)
  }

  ghost function Committed(w: World, r: RunId, base: RowId, model: W.Model, types: map<Code, real>, now: nat): World
    requires r in w.runs && w.runs[r].Cleared?
  {
    var run := w.runs[r];
    if Computes(run.images, model, types) && !BreaksUnique(w.db, run.id, run.drop) then
      var a := W.AnalysisOf(run.images, model, types);
      World(WithAnalysis(w.db, run.id, run.loaded, run.drop, base, a, now), w.calls, w.runs - {r})
    else w.(runs := w.runs[r := Failed(run.id)])
  }

  // ---- Runs of the system

  ghost predicate Runs(w: World, steps: seq<Step>)
    decreases |steps|
  {
    steps == [] || (Enabled(w, steps[0]) && Runs(Next(w, steps[0]), steps[1..]))
  }

  ghost function After(w: World, steps: seq<Step>): World
    requires Runs(w, steps)
    decreases |steps|
  {
    if steps == [] then w else After(Next(w, steps[0]), steps[1..])
  }

  lemma RunsCons(w: World, s: Step, rest: seq<Step>)
    requires Enabled(w, s) && Runs(Next(w, s), rest)
    ensures Runs(w, [s] + rest) && After(w, [s] + rest) == After(Next(w, s), rest)
  {
    hide Next, Enabled;
    assert ([s] + rest)[1..] == rest;
  }

  // ---- The invariant

  ghost predicate Linked(db: Db) {
    && (forall i :: i in db.images ==> db.images[i] in db.rows)
    && (forall d :: d in db.detections ==> db.detections[d].image in db.images)
  }

  /** One score and one summary, of one severity, and as many detections as the summary counts. */
  ghost predicate Complete(db: Db, id: Id) {
    && |ScoresOf(db, id)| == 1
    && |SummariesOf(db, id)| == 1
    && (forall k :: k in SummariesOf(db, id) ==> db.summaries[k].total == |DetectionsOf(db, id)|)
    && forall j, k :: j in ScoresOf(db, id) && k in SummariesOf(db, id) ==> db.scores[j].severity == db.summaries[k].severity
  }

  ghost predicate Bare(db: Db, id: Id) {
    ScoresOf(db, id) == {} && SummariesOf(db, id) == {} && DetectionsOf(db, id) == {}
  }

  /** Result rows exist exactly for finished inspections, and then they agree. */
  ghost predicate Agree(db: Db, id: Id) {
    if id in db.rows && db.rows[id].status == TERMINEE then Complete(db, id) else Bare(db, id)
  }

  ghost predicate Live(w: World, id: Id) {
    exists r :: r in w.runs && w.runs[r].id == id
  }

  /** A live run means EN_COURS and EN_COURS means a live run; two runs never share an inspection. */
  ghost predicate Exclusive(w: World) {
    && (forall r :: r in w.runs ==> w.runs[r].id in w.db.rows && w.db.rows[w.runs[r].id].status == EN_COURS)
    && (forall r, q :: r in w.runs && q in w.runs && w.runs[r].id == w.runs[q].id ==> r == q)
    && (forall id :: id in w.db.rows && w.db.rows[id].status == EN_COURS ==> Live(w, id))
  }

  ghost predicate KnownStatus(s: Status) {
    s == EN_ATTENTE || s == EN_COURS || s == TERMINEE || s == ERREUR
  }

  /** The row read earlier is still there, or has a higher version now. */
  ghost predicate Fingerprint(db: Db, id: Id, seen: Row) {
    && id in db.rows
    && seen.version <= db.rows[id].version
    && (seen.version == db.rows[id].version ==> seen == db.rows[id])
  }

  ghost predicate CallSound(db: Db, c: Call) {
    && Fingerprint(db, c.id, c.seen) && c.seen.deletedAt.None?
    && (c.Requesting? ==> (c.seen.status == EN_ATTENTE || c.seen.status == ERREUR) && ImagesOf(db, c.id) != {})
  }

  ghost predicate RunSound(db: Db, r: Run) {
    && ImagesOf(db, r.id) != {}
    && (r.Working? || r.Cleared? ==>
          r.images != [] && Distinct(r.images) && Elements(r.images) <= ImagesOf(db, r.id) && r.loaded == EN_COURS)
    && (r.Cleared? ==> r.drop == Dropped({}, {}, {}))
  }

  ghost predicate Inv(w: World) {
    && Linked(w.db)
    && Exclusive(w)
    && (forall id :: id in w.db.rows ==> KnownStatus(w.db.rows[id].status))
    && (forall id :: Agree(w.db, id))
    && (forall c :: c in w.calls ==> CallSound(w.db, w.calls[c]))
    && (forall r :: r in w.runs ==> RunSound(w.db, w.runs[r]))
  }

  lemma InvInitially()
    ensures Inv(EMPTY)
  {
  }

  // ---- What a change of one row keeps

  /** From db to db', only the row of `id` changed, and by at most one version. */
  ghost predicate OneRow(db: Db, db': Db, id: Id) {
    && db' == db.(rows := db'.rows)
    && db'.rows.Keys == db.rows.Keys
    && (forall i :: i in db.rows && i != id ==> db'.rows[i] == db.rows[i])
    && (id in db.rows ==>
          (db'.rows[id] == db.rows[id] || db'.rows[id].version == db.rows[id].version + 1))
  }

  lemma TouchOneRow(db: Db, id: Id, change: Change, now: nat)
    ensures OneRow(db, Touch(db, id, change, now), id)
    ensures id in db.rows ==> Touch(db, id, change, now).rows[id].status == Assign(db.rows[id], change).status
  {
  }

  lemma SameTables(db: Db, db': Db, id: Id)
    requires db' == db.(rows := db'.rows)
    ensures ImagesOf(db', id) == ImagesOf(db, id) && DetectionsOf(db', id) == DetectionsOf(db, id)
    ensures ScoresOf(db', id) == ScoresOf(db, id) && SummariesOf(db', id) == SummariesOf(db, id)
  {
  }

  lemma OneRowCalls(db: Db, db': Db, id: Id, c: Call)
    requires OneRow(db, db', id) && CallSound(db, c)
    ensures CallSound(db', c)
  {
  }

  lemma OneRowRuns(db: Db, db': Db, id: Id, r: Run)
    requires OneRow(db, db', id) && RunSound(db, r)
    ensures RunSound(db', r)
  {
  }

  lemma OneRowAgrees(db: Db, db': Db, id: Id, other: Id)
    requires OneRow(db, db', id) && Agree(db, other)
    requires id in db.rows && other == id ==>
      (db'.rows[id].status == TERMINEE <==> db.rows[id].status == TERMINEE)
    ensures Agree(db', other)
  {
  }

  /** The parts of the invariant a write of one row keeps by itself. */
  lemma OneRowKeeps(w: World, db': Db, id: Id)
    requires Inv(w) && OneRow(w.db, db', id)
    requires id in w.db.rows ==>
      KnownStatus(db'.rows[id].status)
      && (db'.rows[id].status == TERMINEE <==> w.db.rows[id].status == TERMINEE)
    ensures Linked(db')
    ensures forall i :: i in db'.rows ==> KnownStatus(db'.rows[i].status)
    ensures forall i :: Agree(db', i)
    ensures forall c :: c in w.calls ==> CallSound(db', w.calls[c])
    ensures forall r :: r in w.runs ==> RunSound(db', w.runs[r])
  {
    hide CallSound, RunSound, Agree;
    forall i ensures Agree(db', i) { OneRowAgrees(w.db, db', id, i); }
    forall c | c in w.calls ensures CallSound(db', w.calls[c]) { OneRowCalls(w.db, db', id, w.calls[c]); }
    forall r | r in w.runs ensures RunSound(db', w.runs[r]) { OneRowRuns(w.db, db', id, w.runs[r]); }
  }

  // ---- Each kind of step keeps the invariant

  lemma CreateTables(w: World, db': Db, id: Id)
    requires Inv(w) && id !in w.db.rows && id in db'.rows
    requires db' == w.db.(rows := w.db.rows[id := db'.rows[id]]) && db'.rows[id].status == EN_ATTENTE
    ensures Linked(db')
    ensures forall i :: Agree(db', i)
    ensures forall c :: c in w.calls ==> CallSound(db', w.calls[c])
    ensures forall r :: r in w.runs ==> RunSound(db', w.runs[r])
  {
    hide Exclusive, Complete, Bare;
    forall i ensures Agree(db', i) {
      assert Agree(w.db, i);
      CreateAgrees(w.db, db', id, i);
    }
    forall c | c in w.calls ensures CallSound(db', w.calls[c]) { SameTables(w.db, db', w.calls[c].id); }
    forall r | r in w.runs ensures RunSound(db', w.runs[r]) { SameTables(w.db, db', w.runs[r].id); }
  }

  lemma CreateAgrees(db: Db, db': Db, id: Id, i: Id)
    requires Agree(db, i) && id !in db.rows && id in db'.rows
    requires db' == db.(rows := db.rows[id := db'.rows[id]]) && db'.rows[id].status == EN_ATTENTE
    ensures Agree(db', i)
  {
  }

  lemma CreateExclusive(w: World, db': Db, id: Id)
    requires Exclusive(w) && id !in w.db.rows && id in db'.rows
    requires db' == w.db.(rows := w.db.rows[id := db'.rows[id]]) && db'.rows[id].status == EN_ATTENTE
    ensures Exclusive(w.(db := db'))
  {
  }

  lemma CreateKeeps(w: World, id: Id, weather: Option<string>, notes: Option<string>, now: nat)
    requires Inv(w) && id !in w.db.rows
    ensures Inv(w.(db := w.db.(rows := w.db.rows[id := Row(EN_ATTENTE, weather, notes, None, now, 1)])))
  {
    hide Linked, Exclusive, Agree, CallSound, RunSound;
    var db' := w.db.(rows := w.db.rows[id := Row(EN_ATTENTE, weather, notes, None, now, 1)]);
    CreateTables(w, db', id);
    CreateExclusive(w, db', id);
  }

  lemma CallsKeep(w: World, calls: map<CallId, Call>)
    requires Inv(w) && forall c :: c in calls ==> CallSound(w.db, calls[c])
    ensures Inv(w.(calls := calls))
  {
    var w' := w.(calls := calls);
    forall i | i in w'.db.rows && w'.db.rows[i].status == EN_COURS ensures Live(w', i) {
      assert Live(w, i);
    }
  }

  /** A write that keeps the status keeps the invariant. */
  lemma DetailsKeep(w: World, id: Id, change: Change, now: nat)
    requires Inv(w) && !change.SetStatus?
    ensures Inv(w.(db := Touch(w.db, id, change, now)))
  {
    var db' := Touch(w.db, id, change, now);
    var w' := w.(db := db');
    TouchOneRow(w.db, id, change, now);
    OneRowKeeps(w, db', id);
    forall i | i in db'.rows && db'.rows[i].status == EN_COURS ensures Live(w', i) {
      assert Live(w, i);
    }
  }

  lemma GrantExclusive(w: World, db': Db, id: Id, r: RunId)
    requires Exclusive(w) && OneRow(w.db, db', id) && id in w.db.rows && r !in w.runs
    requires w.db.rows[id].status != EN_COURS && db'.rows[id].status == EN_COURS
    ensures Exclusive(World(db', w.calls, w.runs[r := Queued(id)]))
  {
    var w' := World(db', w.calls, w.runs[r := Queued(id)]);
    assert w'.runs[r].id == id;
    forall i | i in db'.rows && db'.rows[i].status == EN_COURS ensures Live(w', i) {
      if i != id {
        assert Live(w, i);
        var q :| q in w.runs && w.runs[q].id == i;
        assert w'.runs[q].id == i;
      }
    }
  }

  lemma QueuedSound(db: Db, db': Db, id: Id)
    requires OneRow(db, db', id) && ImagesOf(db, id) != {}
    ensures RunSound(db', Queued(id))
  {
  }

  /** A granted request: the row is the one that was read, so no run is live and one may start. */
  lemma GrantKeeps(w: World, id: Id, r: RunId, now: nat)
    requires Inv(w) && id in w.db.rows && r !in w.runs && ImagesOf(w.db, id) != {}
    requires w.db.rows[id].status == EN_ATTENTE || w.db.rows[id].status == ERREUR
    ensures Inv(World(Touch(w.db, id, SetStatus(EN_COURS), now), w.calls, w.runs[r := Queued(id)]))
  {
    hide Linked, Exclusive, Agree, CallSound, RunSound, OneRow, Touch, ImagesOf;
    var db' := Touch(w.db, id, SetStatus(EN_COURS), now);
    TouchOneRow(w.db, id, SetStatus(EN_COURS), now);
    OneRowFacts(w.db, db', id);
    OneRowKeeps(w, db', id);
    QueuedSound(w.db, db', id);
    GrantExclusive(w, db', id, r);
  }

  lemma FinishExclusive(w: World, db': Db, r: RunId)
    requires Exclusive(w) && r in w.runs && w.runs[r].id in db'.rows && db'.rows[w.runs[r].id].status != EN_COURS
    requires db'.rows.Keys == w.db.rows.Keys
    requires forall i :: i in w.db.rows && i != w.runs[r].id ==> db'.rows[i] == w.db.rows[i]
    ensures Exclusive(World(db', w.calls, w.runs - {r}))
  {
    var w' := World(db', w.calls, w.runs - {r});
    forall i | i in db'.rows && db'.rows[i].status == EN_COURS ensures Live(w', i) {
      assert Live(w, i);
      var q :| q in w.runs && w.runs[q].id == i;
      assert q in w'.runs && w'.runs[q].id == i;
    }
  }

  lemma OneRowFacts(db: Db, db': Db, id: Id)
    requires OneRow(db, db', id)
    ensures db'.rows.Keys == db.rows.Keys
    ensures forall i :: i in db.rows && i != id ==> db'.rows[i] == db.rows[i]
  {
  }

  lemma LiveRow(w: World, r: RunId)
    requires Exclusive(w) && r in w.runs
    ensures w.runs[r].id in w.db.rows && w.db.rows[w.runs[r].id].status == EN_COURS
  {
  }

  lemma ErrorKeeps(w: World, r: RunId, now: nat)
    requires Inv(w) && r in w.runs
    ensures Inv(World(Touch(w.db, w.runs[r].id, SetStatus(ERREUR), now), w.calls, w.runs - {r}))
  {
    hide Linked, Exclusive, Agree, CallSound, RunSound, OneRow, Touch;
    var id := w.runs[r].id;
    var db' := Touch(w.db, id, SetStatus(ERREUR), now);
    LiveRow(w, r);
    TouchOneRow(w.db, id, SetStatus(ERREUR), now);
    OneRowFacts(w.db, db', id);
    OneRowKeeps(w, db', id);
    FinishExclusive(w, db', r);
  }

  lemma RunExclusive(w: World, r: RunId, run: Run)
    requires Exclusive(w) && r in w.runs && run.id == w.runs[r].id
    ensures Exclusive(w.(runs := w.runs[r := run]))
  {
    var w' := w.(runs := w.runs[r := run]);
    forall i | i in w'.db.rows && w'.db.rows[i].status == EN_COURS ensures Live(w', i) {
      assert Live(w, i);
      var q :| q in w.runs && w.runs[q].id == i;
      assert q in w'.runs && w'.runs[q].id == i;
    }
  }

  /** A run moving on inside its transaction changes no table. */
  lemma RunKeeps(w: World, r: RunId, run: Run)
    requires Inv(w) && r in w.runs && run.id == w.runs[r].id && RunSound(w.db, run)
    ensures Inv(w.(runs := w.runs[r := run]))
  {
    hide Linked, Exclusive, Agree, CallSound, RunSound;
    RunExclusive(w, r, run);
  }

  lemma UploadTables(w: World, db': Db, image: ImageId, id: Id)
    requires Inv(w) && image !in w.db.images && id in w.db.rows
    requires db' == w.db.(images := w.db.images[image := id])
    ensures Linked(db') && forall i :: Agree(db', i)
    ensures forall c :: c in w.calls ==> CallSound(db', w.calls[c])
    ensures forall r :: r in w.runs ==> RunSound(db', w.runs[r])
  {
    hide Exclusive, ImagesOf, DetectionsOf, ScoresOf, SummariesOf;
    forall i ensures Agree(db', i) {
      assert Agree(w.db, i);
      MoreImages(w.db, image, id, i);
    }
    forall c | c in w.calls ensures CallSound(db', w.calls[c]) { MoreImages(w.db, image, id, w.calls[c].id); }
    forall r | r in w.runs ensures RunSound(db', w.runs[r]) { MoreImages(w.db, image, id, w.runs[r].id); }
  }

  lemma SameRowsExclusive(w: World, db': Db)
    requires Exclusive(w) && db'.rows == w.db.rows
    ensures Exclusive(w.(db := db'))
  {
  }

  lemma UploadKeeps(w: World, image: ImageId, id: Id)
    requires Inv(w) && image !in w.db.images && id in w.db.rows
    ensures Inv(w.(db := w.db.(images := w.db.images[image := id])))
  {
    hide Linked, Exclusive, Agree, CallSound, RunSound;
    var db' := w.db.(images := w.db.images[image := id]);
    UploadTables(w, db', image, id);
    SameRowsExclusive(w, db');
  }

  lemma MoreImages(db: Db, image: ImageId, id: Id, i: Id)
    requires Linked(db) && image !in db.images
    ensures
      var db' := db.(images := db.images[image := id]);
      ImagesOf(db, i) <= ImagesOf(db', i) && DetectionsOf(db', i) == DetectionsOf(db, i)
      && ScoresOf(db', i) == ScoresOf(db, i) && SummariesOf(db', i) == SummariesOf(db, i)
  {
  }

  // ---- The commit of a run

  ghost function Range(base: RowId, n: nat): (ids: set<RowId>)
    ensures forall k :: k in ids <==> base <= k < base + n
    ensures |ids| == n
  {
    if n == 0 then {} else Range(base, n - 1) + {base + n - 1}
  }

  /** The rows of a run all lie on images of its inspection. */
  ghost predicate OwnRows(db: Db, id: Id, rows: seq<W.DetectionRow>) {
    forall k :: 0 <= k < |rows| ==> rows[k].image in db.images && db.images[rows[k].image] == id
  }

  lemma InsertedDetections(db: Db, id: Id, base: RowId, a: W.Analysis, i: Id)
    requires Linked(db) && OwnRows(db, id, a.rows) && FreshIds(db, base, |a.rows|)
    ensures
      var db' := WithResults(db, id, Dropped({}, {}, {}), base, a);
      DetectionsOf(db', i) == DetectionsOf(db, i) + if i == id then Range(base, |a.rows|) else {}
  {
    var db' := WithResults(db, id, Dropped({}, {}, {}), base, a);
    assert db.detections - {} == db.detections;
    forall k ensures k in DetectionsOf(db', i) <==>
      k in DetectionsOf(db, i) || (i == id && k in Range(base, |a.rows|))
    {
      InsertedRows(db.detections, base, a.rows, k);
    }
  }

  lemma InsertedLinked(db: Db, id: Id, base: RowId, a: W.Analysis)
    requires Linked(db) && OwnRows(db, id, a.rows) && FreshIds(db, base, |a.rows|)
    ensures Linked(WithResults(db, id, Dropped({}, {}, {}), base, a))
  {
    var db' := WithResults(db, id, Dropped({}, {}, {}), base, a);
    assert db.detections - {} == db.detections;
    forall k | k in db'.detections ensures db'.detections[k].image in db'.images {
      InsertedRows(db.detections, base, a.rows, k);
    }
  }

  lemma InsertedRowsOf(db: Db, id: Id, base: RowId, a: W.Analysis, i: Id)
    requires FreshIds(db, base, |a.rows|)
    ensures
      var db' := WithResults(db, id, Dropped({}, {}, {}), base, a);
      && ScoresOf(db', i) == ScoresOf(db, i) + (if i == id then {base} else {})
      && SummariesOf(db', i) == SummariesOf(db, i) + (if i == id then {base} else {})
      && db'.summaries[base].total == a.total && db'.summaries[base].severity == db'.scores[base].severity
      && (forall k :: k in db.summaries ==> k in db'.summaries && db'.summaries[k] == db.summaries[k])
      && (forall k :: k in db.scores ==> k in db'.scores && db'.scores[k] == db.scores[k])
  {
    hide Inserted;
  }

  /** After the inserts, the inspection of the run has agreeing results and the others are as before. */
  lemma ResultsAgree(db: Db, id: Id, base: RowId, a: W.Analysis)
    requires Linked(db) && OwnRows(db, id, a.rows) && FreshIds(db, base, |a.rows|) && Bare(db, id) && a.total == |a.rows|
    ensures Complete(WithResults(db, id, Dropped({}, {}, {}), base, a), id)
  {
    hide WithResults, FreshIds, OwnRows, Linked, DetectionsOf, ScoresOf, SummariesOf, Range;
    InsertedDetections(db, id, base, a, id);
    InsertedRowsOf(db, id, base, a, id);
    var db' := WithResults(db, id, Dropped({}, {}, {}), base, a);
    assert ScoresOf(db', id) == {base} && SummariesOf(db', id) == {base};
    assert DetectionsOf(db', id) == Range(base, |a.rows|);
  }

  lemma OthersAgree(db: Db, id: Id, base: RowId, a: W.Analysis, i: Id)
    requires Linked(db) && OwnRows(db, id, a.rows) && FreshIds(db, base, |a.rows|) && Agree(db, i) && i != id
    ensures Agree(WithResults(db, id, Dropped({}, {}, {}), base, a), i)
  {
    hide FreshIds, OwnRows, Linked, DetectionsOf, Range, Inserted;
    InsertedDetections(db, id, base, a, i);
    InsertedRowsOf(db, id, base, a, i);
  }

  lemma ResultsCalls(db: Db, db': Db, c: Call)
    requires CallSound(db, c) && db'.rows == db.rows && db'.images == db.images
    ensures CallSound(db', c)
  {
  }

  lemma ResultsRuns(db: Db, db': Db, r: Run)
    requires RunSound(db, r) && db'.images == db.images
    ensures RunSound(db', r)
  {
  }

  /** The tables after a finished run, before the status. */
  lemma StoredTables(w: World, r: RunId, base: RowId, a: W.Analysis)
    requires Inv(w) && r in w.runs && w.runs[r].Cleared? && a.total == |a.rows|
    requires OwnRows(w.db, w.runs[r].id, a.rows) && FreshIds(w.db, base, |a.rows|)
    ensures
      var id := w.runs[r].id;
      var stored := WithResults(w.db, id, w.runs[r].drop, base, a);
      && w.runs[r].drop == Dropped({}, {}, {}) && w.runs[r].loaded == EN_COURS
      && stored.rows == w.db.rows && stored.images == w.db.images
      && Linked(stored) && Complete(stored, id)
      && (forall i :: i != id ==> Agree(stored, i))
      && (forall c :: c in w.calls ==> CallSound(stored, w.calls[c]))
      && (forall q :: q in w.runs ==> RunSound(stored, w.runs[q]))
  {
    hide Complete, OwnRows, FreshIds, CallSound, Linked, Inserted, Bare;
    var id := w.runs[r].id;
    assert RunSound(w.db, w.runs[r]);
    assert Agree(w.db, id);
    InsertedLinked(w.db, id, base, a);
    ResultsAgree(w.db, id, base, a);
    var stored := WithResults(w.db, id, w.runs[r].drop, base, a);
    forall i | i != id ensures Agree(stored, i) { OthersAgree(w.db, id, base, a, i); }
    forall c | c in w.calls ensures CallSound(stored, w.calls[c]) { ResultsCalls(w.db, stored, w.calls[c]); }
    forall q | q in w.runs ensures RunSound(stored, w.runs[q]) { ResultsRuns(w.db, stored, w.runs[q]); }
  }

  /** In a sound world a run that computes never meets a unique violation. */
  lemma NeverBreaksUnique(w: World, r: RunId)
    requires Inv(w) && r in w.runs && w.runs[r].Cleared?
    ensures !BreaksUnique(w.db, w.runs[r].id, w.runs[r].drop)
  {
    hide DetectionsOf, CallSound, Linked, Complete;
    assert Agree(w.db, w.runs[r].id);
  }

  lemma FinishTables(stored: Db, id: Id, now: nat, calls: map<CallId, Call>, runs: map<RunId, Run>)
    requires id in stored.rows && Linked(stored) && Complete(stored, id)
    requires forall i :: i != id ==> Agree(stored, i)
    requires forall c :: c in calls ==> CallSound(stored, calls[c])
    requires forall q :: q in runs ==> RunSound(stored, runs[q])
    ensures
      var db' := Touch(stored, id, SetStatus(TERMINEE), now);
      && OneRow(stored, db', id) && db'.rows[id].status == TERMINEE
      && Linked(db') && (forall i :: Agree(db', i))
      && (forall c :: c in calls ==> CallSound(db', calls[c]))
      && (forall q :: q in runs ==> RunSound(db', runs[q]))
  {
    hide CallSound, RunSound, Complete, Bare, Touch, Linked;
    var db' := Touch(stored, id, SetStatus(TERMINEE), now);
    TouchOneRow(stored, id, SetStatus(TERMINEE), now);
    forall i ensures Agree(db', i) {
      if i != id { OneRowAgrees(stored, db', id, i); } else { CompleteSame(stored, db', id); }
    }
    forall c | c in calls ensures CallSound(db', calls[c]) { OneRowCalls(stored, db', id, calls[c]); }
    forall q | q in runs ensures RunSound(db', runs[q]) { OneRowRuns(stored, db', id, runs[q]); }
    LinkedSame(stored, db', id);
  }

  lemma CompleteSame(db: Db, db': Db, id: Id)
    requires OneRow(db, db', id) && Complete(db, id)
    ensures Complete(db', id)
  {
  }

  lemma LinkedSame(db: Db, db': Db, id: Id)
    requires OneRow(db, db', id) && Linked(db)
    ensures Linked(db')
  {
  }

  lemma CommitKeeps(w: World, r: RunId, base: RowId, a: W.Analysis, now: nat)
    requires Inv(w) && r in w.runs && w.runs[r].Cleared? && a.total == |a.rows|
    requires OwnRows(w.db, w.runs[r].id, a.rows) && FreshIds(w.db, base, |a.rows|)
    ensures
      var run := w.runs[r];
      Inv(World(WithAnalysis(w.db, run.id, run.loaded, run.drop, base, a, now), w.calls, w.runs - {r}))
  {
    hide Linked, Agree, CallSound, RunSound, Complete, OwnRows, FreshIds, Touch, WithResults, OneRow, Live;
    var run := w.runs[r];
    StoredTables(w, r, base, a);
    var stored := WithResults(w.db, run.id, run.drop, base, a);
    assert run.id in stored.rows;
    FinishTables(stored, run.id, now, w.calls, w.runs);
    var db' := Touch(stored, run.id, SetStatus(TERMINEE), now);
    OneRowFacts(stored, db', run.id);
    FinishExclusive(w, db', r);
  }

  // ---- Every step keeps the invariant

  lemma BeginKeeps(w: World, c: CallId, id: Id, call: Row -> Call)
    requires Inv(w) && forall row :: call(row).id == id && call(row).seen == row && !call(row).Requesting?
    ensures Inv(Begin(w, c, id, call))
  {
    hide Linked, Exclusive, Agree, RunSound;
    if Visible(w.db, id) {
      CallsKeep(w, w.calls[c := call(w.db.rows[id])]);
    }
  }

  lemma BeginRequestKeeps(w: World, c: CallId, id: Id)
    requires Inv(w) && RequestCheck(w.db, id).Ok?
    ensures Inv(w.(calls := w.calls[c := Requesting(id, RequestCheck(w.db, id).value)]))
  {
    hide Linked, Exclusive, Agree, RunSound;
    CallsKeep(w, w.calls[c := Requesting(id, RequestCheck(w.db, id).value)]);
  }

  lemma DoneKeeps(w: World, c: CallId)
    requires Inv(w)
    ensures Inv(Done(w, c))
  {
    hide Linked, Exclusive, Agree, RunSound, CallSound;
    CallsKeep(w, w.calls - {c});
  }

  lemma EndPatchKeeps(w: World, c: Call, now: nat)
    requires Inv(w) && c.Patching?
    ensures Inv(EndedPatch(w, c, now))
  {
    hide Linked, Exclusive, Agree, RunSound, CallSound, Touch;
    DetailsKeep(w, c.id, SetDetails(c.weather, c.notes), now);
  }

  /** A request that finds the version it read finds the row it read, unstarted and with images. */
  lemma EndRequestKeeps(w: World, c: Call, r: RunId, now: nat)
    requires Inv(w) && c.Requesting? && CallSound(w.db, c) && r !in w.runs
    ensures Inv(EndedRequest(w, c, r, now))
  {
    hide Linked, Exclusive, Agree, RunSound, Touch, ImagesOf;
    if Current(w.db, c.id, c.seen.version) {
      GrantKeeps(w, c.id, r, now);
    }
  }

  lemma StartKeeps(w: World, r: RunId, images: seq<ImageId>)
    requires Inv(w) && Enabled(w, StartRun(r, images))
    ensures Inv(w.(runs := w.runs[r := Started(w.db, w.runs[r].id, images)]))
    ensures images != [] && Started(w.db, w.runs[r].id, images) == Working(w.runs[r].id, EN_COURS, images)
  {
    hide Linked, Agree, CallSound, ImagesOf;
    assert RunSound(w.db, w.runs[r]);
    RunKeeps(w, r, Started(w.db, w.runs[r].id, images));
  }

  lemma DropWithin(db: Db, id: Id, images: seq<ImageId>)
    requires Elements(images) <= ImagesOf(db, id)
    ensures ToDrop(db, id, images).detections <= DetectionsOf(db, id)
  {
    forall d | d in ToDrop(db, id, images).detections ensures d in DetectionsOf(db, id) {
      assert db.detections[d].image in Elements(images);
    }
  }

  /** A run clears nothing: while it is live its inspection has no result rows. */
  lemma NothingToDrop(db: Db, id: Id, images: seq<ImageId>)
    requires Bare(db, id) && Elements(images) <= ImagesOf(db, id)
    ensures ToDrop(db, id, images) == Dropped({}, {}, {})
  {
    DropWithin(db, id, images);
  }

  lemma ClearKeeps(w: World, r: RunId)
    requires Inv(w) && r in w.runs && w.runs[r].Working?
    ensures
      var run := w.runs[r];
      Inv(w.(runs := w.runs[r := Cleared(run.id, run.loaded, run.images, ToDrop(w.db, run.id, run.images))]))
  {
    hide Linked, CallSound, ImagesOf, ToDrop, Bare, Complete;
    var run := w.runs[r];
    assert RunSound(w.db, run) && Agree(w.db, run.id);
    NothingToDrop(w.db, run.id, run.images);
    RunKeeps(w, r, Cleared(run.id, run.loaded, run.images, ToDrop(w.db, run.id, run.images)));
  }

  lemma FailKeeps(w: World, r: RunId)
    requires Inv(w) && r in w.runs
    ensures Inv(w.(runs := w.runs[r := Failed(w.runs[r].id)]))
  {
    hide Linked, CallSound, Agree, Exclusive;
    assert RunSound(w.db, w.runs[r]);
    RunKeeps(w, r, Failed(w.runs[r].id));
  }

  lemma OwnCollected(db: Db, id: Id, images: seq<ImageId>, model: W.Model, types: map<Code, real>)
    requires images != [] && Elements(images) <= ImagesOf(db, id)
    ensures OwnRows(db, id, W.AnalysisOf(images, model, types).rows)
  {
    hide W.RunInputs, PciOf;
    W.CollectedWellFormed(images, model, types);
    var rows := W.Collected(images, model, types);
    forall k | 0 <= k < |rows| ensures rows[k].image in db.images && db.images[rows[k].image] == id {
      assert rows[k].image in Elements(images);
    }
  }

  lemma CommittedKeeps(w: World, r: RunId, base: RowId, model: W.Model, types: map<Code, real>, now: nat)
    requires Inv(w) && Enabled(w, CommitRun(r, base, model, types, now))
    ensures Inv(Committed(w, r, base, model, types, now))
  {
    hide Linked, CallSound, Agree, Exclusive, WithAnalysis, PciOf, W.RunInputs, W.DominantOf, W.MeanConfidence,
         FreshIds, OwnRows, ImagesOf, BreaksUnique, AllInRange;
    var run := w.runs[r];
    assert RunSound(w.db, run);
    if Computes(run.images, model, types) && !BreaksUnique(w.db, run.id, run.drop) {
      OwnCollected(w.db, run.id, run.images, model, types);
      CommitKeeps(w, r, base, W.AnalysisOf(run.images, model, types), now);
    } else {
      FailKeeps(w, r);
    }
  }

  lemma StepKeeps(w: World, s: Step)
    requires Inv(w) && Enabled(w, s)
    ensures Inv(Next(w, s))
  {
    hide Linked, Exclusive, Agree, RunSound, CallSound, Touch, ImagesOf, Begin, RequestCheck, EndedPatch, EndedRequest,
         Started, Committed, ToDrop, FreshIds, W.Collected;
    match s {
      case Create(id, weather, notes, now) => CreateKeeps(w, id, weather, notes, now);
      case BeginPatch(c, id, expected, weather, notes) =>
        BeginKeeps(w, c, id, row => Patching(id, row, expected, weather, notes));
      case BeginDelete(c, id) => BeginKeeps(w, c, id, row => Deleting(id, row));
      case BeginUpload(c, id) => BeginKeeps(w, c, id, row => Uploading(id, row));
      case BeginRequest(c, id) => if RequestCheck(w.db, id).Ok? { BeginRequestKeeps(w, c, id); }
      case EndPatch(c, now) =>
        DoneKeeps(w, c);
        EndPatchKeeps(Done(w, c), w.calls[c], now);
      case EndDelete(c, now) =>
        DoneKeeps(w, c);
        DetailsKeep(Done(w, c), w.calls[c].id, SetDeleted(now), now);
      case EndUpload(c, image) =>
        DoneKeeps(w, c);
        SeenExists(w, c);
        UploadKeeps(Done(w, c), image, w.calls[c].id);
      case EndRequest(c, r, now) =>
        DoneKeeps(w, c);
        EndRequestKeeps(Done(w, c), w.calls[c], r, now);
      case Abandon(c) => DoneKeeps(w, c);
      case StartRun(r, images) => StartKeeps(w, r, images);
      case ClearRun(r) => ClearKeeps(w, r);
      case CommitRun(r, base, model, types, now) => CommittedKeeps(w, r, base, model, types, now);
      case FailRun(r) => FailKeeps(w, r);
      case MarkError(r, now) => ErrorKeeps(w, r, now);
    }
  }

  lemma SeenExists(w: World, c: CallId)
    requires Inv(w) && c in w.calls
    ensures w.calls[c].id in w.db.rows
  {
  }

  lemma {:induction false} StepsKeep(w: World, steps: seq<Step>)
    requires Inv(w) && Runs(w, steps)
    ensures Inv(After(w, steps))
    decreases |steps|
  {
    hide Inv, Next, Enabled;
    if steps != [] {
      StepKeeps(w, steps[0]);
      StepsKeep(Next(w, steps[0]), steps[1..]);
    }
  }
}

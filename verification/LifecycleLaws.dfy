/**
 What the lifecycle guarantees over every interleaving: one live run, one winner per version, results
 that agree with the status, versions that identify rows, and rows that are the fold of their writes.
 */
module LifecycleLaws {
  import opened Wrappers
  import W = AnalysisWorker
  import opened InspectionStore
  import opened Lifecycle

  // ---- Reachable worlds

  /**
   After any steps from an empty database: at most one run is granted, queued or working per inspection,
   exactly while its status is EN_COURS; and TERMINEE goes with one score, one summary and its counted
   detections, every other status with no result row at all.
   */
  lemma StatusRunsAndResults(steps: seq<Step>, id: Id)
    requires Runs(EMPTY, steps)
    ensures
      var w := After(EMPTY, steps);
      && (forall r, q :: r in w.runs && q in w.runs && w.runs[r].id == id && w.runs[q].id == id ==> r == q)
      && (id in w.db.rows ==>
            (w.db.rows[id].status == EN_COURS <==> Live(w, id))
            && (if w.db.rows[id].status == TERMINEE then Complete(w.db, id) else Bare(w.db, id)))
  {
    hide Linked, CallSound, RunSound, Complete, Bare, Next, Enabled;
    InvInitially();
    StepsKeep(EMPTY, steps);
    var w := After(EMPTY, steps);
    assert Agree(w.db, id);
  }

  /** After acceptance a run always finds images, and its inserts never meet a unique constraint. */
  lemma RunsNeverFindNothing(steps: seq<Step>, r: RunId)
    requires Runs(EMPTY, steps) && r in After(EMPTY, steps).runs
    ensures
      var w := After(EMPTY, steps);
      && (forall images :: Enabled(w, StartRun(r, images)) ==>
            images != [] && Next(w, StartRun(r, images)).runs[r] == Working(w.runs[r].id, EN_COURS, images))
      && (w.runs[r].Cleared? ==> !BreaksUnique(w.db, w.runs[r].id, w.runs[r].drop))
  {
    hide Linked, CallSound, Agree, Exclusive, RunSound, BreaksUnique, ImagesOf;
    InvInitially();
    StepsKeep(EMPTY, steps);
    var w := After(EMPTY, steps);
    forall images | Enabled(w, StartRun(r, images))
      ensures images != [] && Next(w, StartRun(r, images)).runs[r] == Working(w.runs[r].id, EN_COURS, images)
    {
      StartKeeps(w, r, images);
    }
    if w.runs[r].Cleared? { NeverBreaksUnique(w, r); }
  }

  // ---- Versions

  /** The update a step makes to a row, if its statement matches one. */
  datatype Effect = Effect(id: Id, change: Change, now: nat)

  ghost function WriteOf(w: World, s: Step): Option<Effect>
    requires Enabled(w, s)
  {
    match s
    case EndPatch(c, now) =>
      var call := w.calls[c];
      if (call.weather.None? && call.notes.None?) || !Current(w.db, call.id, call.expected) then None
      else Some(Effect(call.id, SetDetails(call.weather, call.notes), now))
    case EndDelete(c, now) => Some(Effect(w.calls[c].id, SetDeleted(now), now))
    case EndRequest(c, _, now) =>
      if Current(w.db, w.calls[c].id, w.calls[c].seen.version) then
        Some(Effect(w.calls[c].id, SetStatus(EN_COURS), now))
      else None
    case CommitRun(r, _, model, types, now) =>
      var run := w.runs[r];
      if Computes(run.images, model, types) && !BreaksUnique(w.db, run.id, run.drop) && run.loaded != TERMINEE then
        Some(Effect(run.id, SetStatus(TERMINEE), now))
      else None
    case MarkError(r, now) => Some(Effect(w.runs[r].id, SetStatus(ERREUR), now))
    case _ => None
  }

  ghost predicate RowMoves(w: World, s: Step, id: Id)
    requires Enabled(w, s) && id in w.db.rows
  {
    var e, v := WriteOf(w, s), Next(w, s);
    id in v.db.rows &&
    v.db.rows[id] ==
      if e.Some? && e.value.id == id then Updated(w.db.rows[id], e.value.change, e.value.now) else w.db.rows[id]
  }

  lemma CommitRow(w: World, s: Step, id: Id)
    requires Enabled(w, s) && id in w.db.rows && s.CommitRun?
    ensures RowMoves(w, s, id)
  {
    hide Updated, Computes, BreaksUnique, W.AnalysisOf, Inserted, FreshIds;
  }

  lemma CallRow(w: World, s: Step, id: Id)
    requires Enabled(w, s) && id in w.db.rows && (s.EndPatch? || s.EndRequest?)
    ensures RowMoves(w, s, id)
  {
    hide Updated, Committed, FreshIds, RequestCheck, Started, ToDrop, Begin;
  }

  lemma PlainRow(w: World, s: Step, id: Id)
    requires Enabled(w, s) && id in w.db.rows && (s.EndDelete? || s.MarkError?)
    ensures RowMoves(w, s, id)
  {
    hide Updated, Committed, FreshIds, RequestCheck, Started, ToDrop, Begin, EndedPatch, EndedRequest;
  }

  lemma QuietRow(w: World, s: Step, id: Id)
    requires Enabled(w, s) && id in w.db.rows
    requires !s.CommitRun? && !s.EndPatch? && !s.EndDelete? && !s.EndRequest? && !s.MarkError?
    ensures RowMoves(w, s, id)
  {
    hide Updated, Committed, FreshIds, RequestCheck, Started, ToDrop, EndedPatch, EndedRequest;
  }

  /** The row of one inspection after a step: its own update if the step makes one, else as before. */
  lemma RowAfter(w: World, s: Step, id: Id)
    requires Enabled(w, s) && id in w.db.rows
    ensures RowMoves(w, s, id)
  {
    hide Next, WriteOf, Updated, Enabled;
    if s.CommitRun? {
      CommitRow(w, s, id);
    } else if s.EndPatch? || s.EndRequest? {
      CallRow(w, s, id);
    } else if s.EndDelete? || s.MarkError? {
      PlainRow(w, s, id);
    } else {
      QuietRow(w, s, id);
    }
  }

  /** The row-changing updates of one inspection along a history, in commit order. */
  ghost function Log(w: World, steps: seq<Step>, id: Id): seq<Effect>
    requires Runs(w, steps) && id in w.db.rows
    decreases |steps|
  {
    if steps == [] then []
    else
      var e := WriteOf(w, steps[0]);
      RowAfter(w, steps[0], id);
      (if e.Some? && e.value.id == id && Updated(w.db.rows[id], e.value.change, e.value.now) != w.db.rows[id]
       then [e.value] else []) + Log(Next(w, steps[0]), steps[1..], id)
  }

  function Replay(row: Row, log: seq<Effect>): Row
    decreases |log|
  {
    if log == [] then row else Replay(Updated(row, log[0].change, log[0].now), log[1..])
  }

  /** Every write of the log changes the row it meets. */
  ghost predicate AllEffective(row: Row, log: seq<Effect>)
    decreases |log|
  {
    log == [] || (Updated(row, log[0].change, log[0].now) != row
                  && AllEffective(Updated(row, log[0].change, log[0].now), log[1..]))
  }

  /**
   No lost update: the row at the end of any history is the fold of its effective writes in commit
   order, every one of them changed the row, and the version counts them.
   */
  lemma {:induction false} RowIsFold(w: World, steps: seq<Step>, id: Id)
    requires Runs(w, steps) && id in w.db.rows
    ensures
      var log := Log(w, steps, id);
      && id in After(w, steps).db.rows
      && After(w, steps).db.rows[id] == Replay(w.db.rows[id], log)
      && AllEffective(w.db.rows[id], log)
      && After(w, steps).db.rows[id].version == w.db.rows[id].version + |log|
    decreases |steps|
  {
    hide Next, Enabled, WriteOf, Updated;
    if steps != [] {
      RowAfter(w, steps[0], id);
      RowIsFold(Next(w, steps[0]), steps[1..], id);
      var e := WriteOf(w, steps[0]);
      if e.Some? && e.value.id == id {
        VersionCounts(w.db.rows[id], e.value.change, e.value.now);
      }
      LogStep(w, steps, id);
    }
  }

  lemma LogStep(w: World, steps: seq<Step>, id: Id)
    requires Runs(w, steps) && id in w.db.rows && steps != []
    requires id in Next(w, steps[0]).db.rows
    ensures
      var e, row, rest := WriteOf(w, steps[0]), w.db.rows[id], Log(Next(w, steps[0]), steps[1..], id);
      var log := Log(w, steps, id);
      if e.Some? && e.value.id == id && Updated(row, e.value.change, e.value.now) != row
      then |log| == |rest| + 1 && log[0] == e.value && log[1..] == rest
      else log == rest
  {
    hide Next, WriteOf, Updated;
  }

  /** A patch whose write is made: it has something to write and sends the version the row has. */
  ghost predicate Accepts(w: World, s: Step, id: Id)
    requires Enabled(w, s)
  {
    && s.EndPatch? && w.calls[s.call].id == id && (w.calls[s.call].weather.Some? || w.calls[s.call].notes.Some?)
    && id in w.db.rows && w.db.rows[id].version == w.calls[s.call].expected
  }

  /** The weather last sent by an accepted patch along a history. */
  ghost function LastWeather(w: World, steps: seq<Step>, id: Id, before: Option<string>): Option<string>
    requires Runs(w, steps)
    decreases |steps|
  {
    if steps == [] then before
    else
      LastWeather(Next(w, steps[0]), steps[1..], id,
        if Accepts(w, steps[0], id) && w.calls[steps[0].call].weather.Some? then w.calls[steps[0].call].weather else before)
  }

  ghost function LastNotes(w: World, steps: seq<Step>, id: Id, before: Option<string>): Option<string>
    requires Runs(w, steps)
    decreases |steps|
  {
    if steps == [] then before
    else
      LastNotes(Next(w, steps[0]), steps[1..], id,
        if Accepts(w, steps[0], id) && w.calls[steps[0].call].notes.Some? then w.calls[steps[0].call].notes else before)
  }

  lemma DetailsStep(w: World, s: Step, id: Id)
    requires Enabled(w, s) && id in w.db.rows
    ensures id in Next(w, s).db.rows
    ensures Next(w, s).db.rows[id].weather ==
      if Accepts(w, s, id) && w.calls[s.call].weather.Some? then w.calls[s.call].weather else w.db.rows[id].weather
    ensures Next(w, s).db.rows[id].notes ==
      if Accepts(w, s, id) && w.calls[s.call].notes.Some? then w.calls[s.call].notes else w.db.rows[id].notes
  {
    hide Next, Updated, Computes, BreaksUnique, FreshIds;
    RowAfter(w, s, id);
    var e := WriteOf(w, s);
    if e.Some? { ChangeColumns(w.db.rows[id], e.value.change, e.value.now); }
  }

  /** Along any history the details of a row are those of the last accepted patch that sent them, else the first ones. */
  lemma {:induction false} DetailsAreLastSent(w: World, steps: seq<Step>, id: Id)
    requires Runs(w, steps) && id in w.db.rows
    ensures id in After(w, steps).db.rows
    ensures After(w, steps).db.rows[id].weather == LastWeather(w, steps, id, w.db.rows[id].weather)
    ensures After(w, steps).db.rows[id].notes == LastNotes(w, steps, id, w.db.rows[id].notes)
    decreases |steps|
  {
    hide Next, Enabled, Accepts;
    if steps != [] {
      DetailsStep(w, steps[0], id);
      DetailsAreLastSent(Next(w, steps[0]), steps[1..], id);
    }
  }

  /** A version identifies the row: along any history, equal versions mean the row never changed. */
  lemma VersionIdentifiesRow(w: World, steps: seq<Step>, id: Id)
    requires Runs(w, steps) && id in w.db.rows
    ensures Fingerprint(After(w, steps).db, id, w.db.rows[id])
  {
    hide Next, Enabled, WriteOf, Updated, Runs;
    RowIsFold(w, steps, id);
  }

  /** A step that changes a row takes its version up by one: at most one row-changing write per version number. */
  lemma OneWritePerVersion(w: World, s: Step, steps: seq<Step>, id: Id)
    requires Enabled(w, s) && id in w.db.rows && id in Next(w, s).db.rows
    requires Next(w, s).db.rows[id] != w.db.rows[id]
    requires Runs(Next(w, s), steps)
    ensures id in After(Next(w, s), steps).db.rows
    ensures After(Next(w, s), steps).db.rows[id].version > w.db.rows[id].version
  {
    hide Next, Enabled, WriteOf, Updated, Runs;
    RowAfter(w, s, id);
    var e := WriteOf(w, s);
    if e.Some? && e.value.id == id { VersionCounts(w.db.rows[id], e.value.change, e.value.now); }
    RowIsFold(Next(w, s), steps, id);
  }

  /** No step brings a deleted inspection back. */
  lemma DeletedStep(w: World, s: Step, id: Id)
    requires Enabled(w, s) && id in w.db.rows && w.db.rows[id].deletedAt.Some?
    ensures id in Next(w, s).db.rows && Next(w, s).db.rows[id].deletedAt.Some?
  {
    hide Next, WriteOf, Enabled;
    RowAfter(w, s, id);
  }

  /** A deleted inspection stays deleted along every run. */
  lemma {:induction false} DeletedStays(w: World, steps: seq<Step>, id: Id)
    requires Runs(w, steps) && id in w.db.rows && !Visible(w.db, id)
    ensures id in After(w, steps).db.rows && !Visible(After(w, steps).db, id)
    decreases |steps|
  {
    hide Next, Enabled;
    if steps != [] {
      DeletedStep(w, steps[0], id);
      DeletedStays(Next(w, steps[0]), steps[1..], id);
    }
  }

  // ---- Who wins

  /** A request is granted exactly when the row still has the version it read. */
  ghost predicate Grants(w: World, c: CallId) {
    c in w.calls && w.calls[c].Requesting? && Current(w.db, w.calls[c].id, w.calls[c].seen.version)
  }

  /** After one request is granted, every other one that read the same version is refused, whatever happens between. */
  lemma OneWinner(w: World, c: CallId, r: RunId, now: nat, steps: seq<Step>, d: CallId)
    requires Inv(w) && Enabled(w, EndRequest(c, r, now)) && Grants(w, c)
    requires Runs(Next(w, EndRequest(c, r, now)), steps)
    requires
      var v := After(Next(w, EndRequest(c, r, now)), steps);
      d in v.calls && v.calls[d].Requesting? && v.calls[d].id == w.calls[c].id
      && v.calls[d].seen.version == w.calls[c].seen.version
    ensures !Grants(After(Next(w, EndRequest(c, r, now)), steps), d)
  {
    hide Runs, Linked, Exclusive, Agree, RunSound, ImagesOf;
    var s := EndRequest(c, r, now);
    var id := w.calls[c].id;
    assert CallSound(w.db, w.calls[c]);
    RowAfter(w, s, id);
    assert Next(w, s).db.rows[id].status == EN_COURS;
    OneWritePerVersion(w, s, steps, id);
  }

  /**
   A request is granted exactly when its row is still the one its checks have read: then it is queued and the row
   EN_COURS, otherwise nothing but the call itself is gone.
   */
  lemma FirstWriterWins(w: World, c: CallId, r: RunId, now: nat)
    requires Inv(w) && Enabled(w, EndRequest(c, r, now))
    ensures Grants(w, c) <==> w.calls[c].id in w.db.rows && w.db.rows[w.calls[c].id] == w.calls[c].seen
    ensures
      var v := Next(w, EndRequest(c, r, now));
      if Grants(w, c) then
        v.runs == w.runs[r := Queued(w.calls[c].id)] && w.calls[c].id in v.db.rows && v.db.rows[w.calls[c].id].status == EN_COURS
      else v == w.(calls := w.calls - {c})
  {
    hide Linked, Exclusive, Agree, RunSound, ImagesOf;
    assert CallSound(w.db, w.calls[c]);
  }

  /** A step that grants a request on an inspection at a version. */
  ghost predicate GrantsAt(w: World, s: Step, id: Id, v: nat)
    requires Enabled(w, s)
  {
    s.EndRequest? && Grants(w, s.call) && w.calls[s.call].id == id && w.db.rows[id].version == v
  }

  ghost function GrantCount(w: World, steps: seq<Step>, id: Id, v: nat): nat
    requires Runs(w, steps)
    decreases |steps|
  {
    if steps == [] then 0
    else (if GrantsAt(w, steps[0], id, v) then 1 else 0) + GrantCount(Next(w, steps[0]), steps[1..], id, v)
  }

  /** A step that changes the row of an inspection while it has a version. */
  ghost predicate ChangesAt(w: World, s: Step, id: Id, v: nat)
    requires Enabled(w, s)
  {
    id in w.db.rows && w.db.rows[id].version == v && id in Next(w, s).db.rows && Next(w, s).db.rows[id] != w.db.rows[id]
  }

  ghost function FirstChange(w: World, steps: seq<Step>, id: Id, v: nat): Option<Step>
    requires Runs(w, steps)
    decreases |steps|
  {
    if steps == [] then None
    else if ChangesAt(w, steps[0], id, v) then Some(steps[0])
    else FirstChange(Next(w, steps[0]), steps[1..], id, v)
  }

  lemma VersionGrows(w: World, s: Step, id: Id)
    requires Enabled(w, s) && id in w.db.rows
    ensures id in Next(w, s).db.rows && Next(w, s).db.rows[id].version >= w.db.rows[id].version
    ensures Next(w, s).db.rows[id] != w.db.rows[id] ==> Next(w, s).db.rows[id].version == w.db.rows[id].version + 1
  {
    hide Next, WriteOf, Updated, Enabled;
    RowAfter(w, s, id);
    var e := WriteOf(w, s);
    if e.Some? && e.value.id == id { VersionCounts(w.db.rows[id], e.value.change, e.value.now); }
  }

  lemma {:induction false} NoGrantLater(w: World, steps: seq<Step>, id: Id, v: nat)
    requires Runs(w, steps) && id in w.db.rows && w.db.rows[id].version > v
    ensures GrantCount(w, steps, id, v) == 0
    decreases |steps|
  {
    hide Next, Enabled, Grants;
    if steps != [] {
      VersionGrows(w, steps[0], id);
      NoGrantLater(Next(w, steps[0]), steps[1..], id, v);
    }
  }

  /** A grant changes its row, and an EndRequest that changes a row is a grant. */
  lemma GrantIsChange(w: World, s: Step, id: Id, v: nat)
    requires Inv(w) && Enabled(w, s)
    ensures GrantsAt(w, s, id, v) <==> s.EndRequest? && ChangesAt(w, s, id, v)
  {
    hide Linked, Exclusive, Agree, RunSound, ImagesOf;
    if id in w.db.rows { RowAfter(w, s, id); }
    if s.EndRequest? { assert CallSound(w.db, w.calls[s.call]); }
  }

  /**
   Over any run from a sound world: for one inspection and one version at most one request is granted, and one is
   exactly when the first write that changes the row at that version is a request's.
   */
  lemma {:induction false} OneGrantPerVersion(w: World, steps: seq<Step>, id: Id, v: nat)
    requires Inv(w) && Runs(w, steps)
    ensures GrantCount(w, steps, id, v) <= 1
    ensures GrantCount(w, steps, id, v) == 1 <==>
      FirstChange(w, steps, id, v).Some? && FirstChange(w, steps, id, v).value.EndRequest?
    decreases |steps|
  {
    hide Inv, Next, Enabled, Grants, GrantsAt;
    if steps != [] {
      GrantIsChange(w, steps[0], id, v);
      if ChangesAt(w, steps[0], id, v) {
        VersionGrows(w, steps[0], id);
        NoGrantLater(Next(w, steps[0]), steps[1..], id, v);
      } else {
        StepKeeps(w, steps[0]);
        OneGrantPerVersion(Next(w, steps[0]), steps[1..], id, v);
      }
    }
  }

  /** Only a granted request and the last writes of a run change a status; only a patch changes the details. */
  lemma WhoWrites(w: World, s: Step, id: Id)
    requires Enabled(w, s) && id in w.db.rows && id in Next(w, s).db.rows
    ensures
      var before, after := w.db.rows[id], Next(w, s).db.rows[id];
      && (after.status != before.status ==> s.EndRequest? || s.CommitRun? || s.MarkError?)
      && (after.weather != before.weather || after.notes != before.notes ==> s.EndPatch?)
      && (after.deletedAt != before.deletedAt ==> s.EndDelete?)
  {
    hide Computes, BreaksUnique;
    RowAfter(w, s, id);
    hide Next;
  }

  // ---- Patches and soft deletes

  /** A patch that sends the version its own check read, and is not refused, writes onto that very row. */
  lemma PatchMeetsWhatItRead(w: World, c: CallId)
    requires Inv(w) && c in w.calls && w.calls[c].Patching? && w.calls[c].expected == w.calls[c].seen.version
    ensures Current(w.db, w.calls[c].id, w.calls[c].expected) <==>
      w.calls[c].id in w.db.rows && w.db.rows[w.calls[c].id] == w.calls[c].seen
    ensures Current(w.db, w.calls[c].id, w.calls[c].expected) ==> Visible(w.db, w.calls[c].id)
  {
    hide Linked, Exclusive, Agree, RunSound, ImagesOf;
    assert CallSound(w.db, w.calls[c]);
  }

  /** A patch can reach a deleted row only with a version higher than the one its check read. */
  lemma PatchOfDeletedRow(w: World, c: CallId)
    requires Inv(w) && c in w.calls && w.calls[c].Patching?
    requires Current(w.db, w.calls[c].id, w.calls[c].expected) && !Visible(w.db, w.calls[c].id)
    ensures w.calls[c].expected > w.calls[c].seen.version
  {
    hide Linked, Exclusive, Agree, RunSound, ImagesOf;
    assert CallSound(w.db, w.calls[c]);
  }

  /** A patch with something to write whose check has just read its row. */
  ghost predicate JustRead(w: World, c: CallId) {
    && c in w.calls && w.calls[c].Patching? && (w.calls[c].weather.Some? || w.calls[c].notes.Some?)
    && Visible(w.db, w.calls[c].id) && w.db.rows[w.calls[c].id] == w.calls[c].seen
  }

  /** After some steps, the patch still waiting, its write would be made to a deleted inspection. */
  ghost predicate LandsAfter(w: World, c: CallId, steps: seq<Step>)
    requires c in w.calls && w.calls[c].Patching?
  {
    && Runs(w, steps)
    && var v := After(w, steps);
       && c in v.calls && v.calls[c] == w.calls[c]
       && Current(v.db, w.calls[c].id, w.calls[c].expected) && !Visible(v.db, w.calls[c].id)
       && WriteOf(v, EndPatch(c, 0)).Some?
  }

  /** Another call changes the notes: one version up, and nothing left behind. */
  lemma NotesBump(w: World, d: CallId, id: Id)
    requires Visible(w.db, id) && d !in w.calls
    ensures
      var row := w.db.rows[id];
      var begin, end := BeginPatch(d, id, row.version, None, Some(OtherNotes(row))), EndPatch(d, 0);
      && Enabled(w, begin) && Enabled(Next(w, begin), end)
      && var v := Next(Next(w, begin), end);
         v.calls == w.calls && Visible(v.db, id) && v.db.rows[id].version == row.version + 1
  {
    var row := w.db.rows[id];
    var begin, end := BeginPatch(d, id, row.version, None, Some(OtherNotes(row))), EndPatch(d, 0);
    assert Next(w, begin).calls - {d} == w.calls;
    VersionCounts(row, SetDetails(None, Some(OtherNotes(row))), 0);
  }

  function OtherNotes(row: Row): string {
    if row.notes == Some("a") then "b" else "a"
  }

  lemma DeleteBump(w: World, d: CallId, id: Id)
    requires Visible(w.db, id) && d !in w.calls
    ensures
      var begin, end := BeginDelete(d, id), EndDelete(d, 0);
      && Enabled(w, begin) && Enabled(Next(w, begin), end)
      && var v := Next(Next(w, begin), end);
         v.calls == w.calls && id in v.db.rows && !Visible(v.db, id) && v.db.rows[id].version == w.db.rows[id].version + 1
  {
    var begin, end := BeginDelete(d, id), EndDelete(d, 0);
    assert Next(w, begin).calls - {d} == w.calls;
    VersionCounts(w.db.rows[id], SetDeleted(0), 0);
  }

  lemma TwoSteps(w: World, s: Step, t: Step, rest: seq<Step>)
    requires Enabled(w, s) && Enabled(Next(w, s), t) && Runs(Next(Next(w, s), t), rest)
    ensures Runs(w, [s] + ([t] + rest)) && After(w, [s] + ([t] + rest)) == After(Next(Next(w, s), t), rest)
  {
    hide Next, Enabled;
    RunsCons(Next(w, s), t, rest);
    RunsCons(w, s, [t] + rest);
  }

  /** A visible inspection can be brought to any higher version and be deleted there, leaving all waiting calls alone. */
  lemma {:induction false} DeletedAtVersion(w: World, d: CallId, id: Id, k: nat) returns (steps: seq<Step>)
    requires Visible(w.db, id) && d !in w.calls
    ensures Runs(w, steps)
    ensures
      var v := After(w, steps);
      v.calls == w.calls && id in v.db.rows && !Visible(v.db, id) && v.db.rows[id].version == w.db.rows[id].version + k + 1
    decreases k
  {
    hide Next, Enabled;
    if k == 0 {
      DeleteBump(w, d, id);
      steps := [BeginDelete(d, id)] + ([EndDelete(d, 0)] + []);
      TwoSteps(w, BeginDelete(d, id), EndDelete(d, 0), []);
    } else {
      NotesBump(w, d, id);
      var row := w.db.rows[id];
      var begin, end := BeginPatch(d, id, row.version, None, Some(OtherNotes(row))), EndPatch(d, 0);
      var rest := DeletedAtVersion(Next(Next(w, begin), end), d, id, k - 1);
      steps := [begin] + ([end] + rest);
      TwoSteps(w, begin, end, rest);
    }
  }

  lemma {:induction false} FreshCall(used: set<CallId>) returns (d: CallId)
    ensures forall c :: c in used ==> c < d
    decreases used
  {
    if used == {} {
      d := 0;
    } else {
      var c :| c in used;
      var e := FreshCall(used - {c});
      d := if c < e then e else c + 1;
      assert forall x :: x in used ==> x == c || x in used - {c};
    }
  }

  /**
   Whether a patch can still be written to a deleted inspection is settled by the version it sends: it can, after
   some steps of other calls, exactly when that version is above the one its own check has read.
   */
  lemma LandsOnDeletedExactly(w: World, c: CallId)
    requires JustRead(w, c)
    ensures (exists steps :: LandsAfter(w, c, steps)) <==> w.calls[c].expected > w.calls[c].seen.version
  {
    hide Next, Enabled, Runs, After;
    var call := w.calls[c];
    if steps :| LandsAfter(w, c, steps) {
      VersionIdentifiesRow(w, steps, call.id);
    }
    if call.expected > call.seen.version {
      var d := FreshCall(w.calls.Keys);
      var steps := DeletedAtVersion(w, d, call.id, call.expected - call.seen.version - 1);
      Waiting(After(w, steps), c);
      assert LandsAfter(w, c, steps);
    }
  }

  lemma Waiting(w: World, c: CallId)
    requires c in w.calls && w.calls[c].Patching?
    ensures Enabled(w, EndPatch(c, 0))
    ensures
      var call := w.calls[c];
      (call.weather.Some? || call.notes.Some?) && Current(w.db, call.id, call.expected) ==> WriteOf(w, EndPatch(c, 0)).Some?
  {
  }

  /** A check for version 2, a delete in between, and the state the late write meets. */
  function LateStep(k: nat): Step {
    if k == 0 then Create(0, None, None, 0)
    else if k == 1 then BeginPatch(0, 0, 2, None, Some("late"))
    else if k == 2 then BeginDelete(1, 0)
    else EndDelete(1, 5)
  }

  function LateWorld(k: nat): World {
    var row := Row(EN_ATTENTE, None, None, None, 0, 1);
    var deleted := Row(EN_ATTENTE, None, None, Some(5), 5, 2);
    var rows := if k == 0 then map[] else if k <= 3 then map[0 := row] else map[0 := deleted];
    var patch, delete := Patching(0, row, 2, None, Some("late")), Deleting(0, row);
    var calls := if k <= 1 then map[] else if k == 3 then map[0 := patch, 1 := delete] else map[0 := patch];
    World(Db(rows, map[], map[], map[], map[]), calls, map[])
  }

  lemma LateAdvances(k: nat)
    requires k < 4
    ensures Enabled(LateWorld(k), LateStep(k)) && Next(LateWorld(k), LateStep(k)) == LateWorld(k + 1)
  {
    hide Committed, EndedPatch, EndedRequest, RequestCheck, Started, ToDrop;
  }

  function LateRun(k: nat): seq<Step>
    decreases 4 - k
  {
    if k >= 4 then [] else [LateStep(k)] + LateRun(k + 1)
  }

  lemma {:induction false} LateHappens(k: nat)
    requires k <= 4
    ensures Runs(LateWorld(k), LateRun(k)) && After(LateWorld(k), LateRun(k)) == LateWorld(4)
    decreases 4 - k
  {
    hide LateWorld, LateStep, Next, Enabled;
    if k < 4 {
      LateAdvances(k);
      LateHappens(k + 1);
      assert ([LateStep(k)] + LateRun(k + 1))[1..] == LateRun(k + 1);
    }
  }

  /**
   The repository's filter is not repeated in the versioned update: a patch that guesses the version after
   a delete, and whose check ran before it, writes the notes of a deleted inspection.
   */
  lemma DeletedRowPatched()
    ensures Runs(EMPTY, LateRun(0))
    ensures
      var w := After(EMPTY, LateRun(0));
      && 0 in w.db.rows && !Visible(w.db, 0)
      && Enabled(w, EndPatch(0, 6))
      && WriteOf(w, EndPatch(0, 6)) == Some(Effect(0, SetDetails(None, Some("late")), 6))
      && Updated(w.db.rows[0], SetDetails(None, Some("late")), 6) != w.db.rows[0]
  {
    hide Next, Runs, After, LateRun;
    LateHappens(0);
    assert LateWorld(0) == EMPTY;
  }
}

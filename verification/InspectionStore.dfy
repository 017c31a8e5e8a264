/**
 The tables behind an inspection and the statements the program runs against them: the row with its
 BEFORE UPDATE triggers (01_schema_v4.2.sql), the versioned update and the soft delete of the repository
 (base.py), the reads of the service (inspection_service.py), and the worker's transaction
 (analysis_worker.py). The class holds the committed tables; each method is one atomic section.
 */
module InspectionStore {
  import opened Wrappers
  import opened PciEngine
  import W = AnalysisWorker

  type Id = nat
  type RowId = nat

  datatype Status = EN_ATTENTE | EN_COURS | TERMINEE | ANNULEE | VALIDEE | ERREUR

  /** The columns of an inspection that any statement of the program writes. */
  datatype Row = Row(
    status: Status, weather: Option<string>, notes: Option<string>, deletedAt: Option<nat>,
    updatedAt: nat, version: nat)

  datatype ScoreRow = ScoreRow(inspection: Id, score: real, severity: SeverityLevel, priority: PriorityLevel)

  datatype SummaryRow =
    SummaryRow(inspection: Id, total: nat, dominant: Option<Code>, severity: SeverityLevel, confidence: Option<real>)

  datatype Db = Db(
    rows: map<Id, Row>, images: map<ImageId, Id>, detections: map<RowId, W.DetectionRow>,
    scores: map<RowId, ScoreRow>, summaries: map<RowId, SummaryRow>)

  /** The SET list of an update; a detail that is None is not in the list. */
  datatype Change =
    | SetStatus(status: Status)
    | SetDeleted(at: nat)
    | SetDetails(weather: Option<string>, notes: Option<string>)

  datatype ApiError = NotFound | WithoutImages | WrongStatus(status: Status) | Stale

  // ---- One row

  function Assign(row: Row, change: Change): Row {
    match change
    case SetStatus(s) => row.(status := s)
    case SetDeleted(t) => row.(deletedAt := Some(t))
    case SetDetails(w, n) => row.(weather := if w.Some? then w else row.weather, notes := if n.Some? then n else row.notes)
  }

  /** `fn_set_updated_at`, then `fn_increment_version`: BEFORE triggers fire in the order of their names. */
  function AfterTriggers(row: Row, proposed: Row, now: nat): Row {
    var stamped := if proposed != row then proposed.(updatedAt := now) else proposed;
    if stamped != row then stamped.(version := row.version + 1) else stamped
  }

  /** What the two triggers leave: the row itself, or the proposed one stamped and one version on. */
  method BeforeUpdate(row: Row, proposed: Row, now: nat) returns (next: Row)
    ensures next == row || next == proposed.(updatedAt := now, version := row.version + 1)
    ensures next == row <==> proposed == row || proposed.(updatedAt := now) == row
  {
    next := proposed;
    if next != row {
      next := next.(updatedAt := now);
    }
    if next != row {
      next := next.(version := row.version + 1);
    }
  }

  function Updated(row: Row, change: Change, now: nat): Row {
    AfterTriggers(row, Assign(row, change), now)
  }

  /** A version is bumped by exactly one when the row changes, and stays when it does not. */
  lemma VersionCounts(row: Row, change: Change, now: nat)
    ensures
      var next := Updated(row, change, now);
      && (next == row || next.version == row.version + 1)
      && (next.version == row.version <==> next == row)
      && (next == row <==> Assign(row, change) == row)
      && (next != row ==> next == Assign(row, change).(updatedAt := now, version := row.version + 1))
  {
  }

  /** What each SET list leaves in the columns: those it names, and no others but the stamp and the version. */
  lemma ChangeColumns(row: Row, change: Change, now: nat)
    ensures
      var next := Updated(row, change, now);
      && (change.SetDetails? ==>
            && next.weather == (if change.weather.Some? then change.weather else row.weather)
            && next.notes == (if change.notes.Some? then change.notes else row.notes)
            && next.status == row.status && next.deletedAt == row.deletedAt)
      && (change.SetStatus? ==>
            next.status == change.status && next.weather == row.weather && next.notes == row.notes
            && next.deletedAt == row.deletedAt)
      && (change.SetDeleted? ==>
            next.deletedAt == Some(change.at) && next.weather == row.weather && next.notes == row.notes
            && next.status == row.status)
      && (next == row || (next.version == row.version + 1 && next.updatedAt == now))
      && (next == row <==> next.status == row.status && next.weather == row.weather && next.notes == row.notes
                           && next.deletedAt == row.deletedAt)
  {
  }

  // ---- Reads

  /** The rows a query of the repository returns. */
  predicate Visible(db: Db, id: Id) {
    id in db.rows && db.rows[id].deletedAt.None?
  }

  function ImagesOf(db: Db, id: Id): set<ImageId> {
    set i | i in db.images && db.images[i] == id
  }

  function DetectionsOf(db: Db, id: Id): set<RowId> {
    set d | d in db.detections && db.detections[d].image in db.images && db.images[db.detections[d].image] == id
  }

  function ScoresOf(db: Db, id: Id): set<RowId> {
    set k | k in db.scores && db.scores[k].inspection == id
  }

  function SummariesOf(db: Db, id: Id): set<RowId> {
    set k | k in db.summaries && db.summaries[k].inspection == id
  }

  /** The checks before the compare-and-set of `request_analysis`. */
  function RequestCheck(db: Db, id: Id): Result<Row, ApiError> {
    if !Visible(db, id) then Err(NotFound)
    else if ImagesOf(db, id) == {} then Err(WithoutImages)
    else if db.rows[id].status != EN_ATTENTE && db.rows[id].status != ERREUR then Err(WrongStatus(db.rows[id].status))
    else Ok(db.rows[id])
  }

  // ---- Writes, on values

  /** `UPDATE inspections SET ... WHERE id = :id`. */
  function Touch(db: Db, id: Id, change: Change, now: nat): Db {
    if id in db.rows then db.(rows := db.rows[id := Updated(db.rows[id], change, now)]) else db
  }

  /** `... AND version = :expected`: does the row match? */
  predicate Current(db: Db, id: Id, expected: int) {
    id in db.rows && db.rows[id].version == expected
  }

  /** The result rows a run deletes: those on its images, and those of its inspection. */
  datatype Dropped = Dropped(detections: set<RowId>, scores: set<RowId>, summaries: set<RowId>)

  function ToDrop(db: Db, id: Id, images: seq<ImageId>): Dropped {
    Dropped((set d | d in db.detections && db.detections[d].image in images), ScoresOf(db, id), SummariesOf(db, id))
  }

  /** Ids handed to new rows are not in use. */
  predicate FreshIds(db: Db, base: RowId, n: nat) {
    && base !in db.scores && base !in db.summaries
    && forall k :: base <= k < base + n ==> k !in db.detections
  }

  /** The new rows, under consecutive fresh ids. */
  function Inserted(table: map<RowId, W.DetectionRow>, base: RowId, rows: seq<W.DetectionRow>): map<RowId, W.DetectionRow> {
    if rows == [] then table
    else Inserted(table, base, rows[..|rows| - 1])[base + |rows| - 1 := rows[|rows| - 1]]
  }

  lemma {:induction false} InsertedRows(table: map<RowId, W.DetectionRow>, base: RowId, rows: seq<W.DetectionRow>, k: RowId)
    ensures k in Inserted(table, base, rows) <==> k in table || base <= k < base + |rows|
    ensures base <= k < base + |rows| ==> Inserted(table, base, rows)[k] == rows[k - base]
    ensures k in table && !(base <= k < base + |rows|) ==> Inserted(table, base, rows)[k] == table[k]
  {
    if rows != [] {
      InsertedRows(table, base, rows[..|rows| - 1], k);
    }
  }

  /** The tables after the deletes and inserts of a run. */
  function WithResults(db: Db, id: Id, drop: Dropped, base: RowId, a: W.Analysis): Db {
    db.(
      detections := Inserted(db.detections - drop.detections, base, a.rows),
      scores := (db.scores - drop.scores)[base := ScoreRow(id, a.pci.score, a.pci.severity, a.pci.priority)],
      summaries := (db.summaries - drop.summaries)[
        base := SummaryRow(id, a.total, a.dominant, a.pci.severity, a.confidence)])
  }

  /** Some other row of this inspection would break uq_pci_inspection or uq_analysis_inspection. */
  predicate BreaksUnique(db: Db, id: Id, drop: Dropped) {
    ScoresOf(db, id) - drop.scores != {} || SummariesOf(db, id) - drop.summaries != {}
  }

  /** The commit of a run: results and status together; the status is written only when it was another one. */
  function WithAnalysis(db: Db, id: Id, loaded: Status, drop: Dropped, base: RowId, a: W.Analysis, now: nat): Db {
    var stored := WithResults(db, id, drop, base, a);
    if loaded == TERMINEE then stored else Touch(stored, id, SetStatus(TERMINEE), now)
  }

  /** What one undisturbed run leaves: a missing row, nothing; a failure, ERREUR alone; otherwise its analysis. */
  ghost function RunOf(
    db: Db, id: Id, images: seq<ImageId>, detector: Option<W.Model>, types: map<Code, real>, base: RowId, now: nat): Db
  {
    if id !in db.rows then db
    else if Analysable(images, detector, types) then
      WithAnalysis(db, id, db.rows[id].status, ToDrop(db, id, images), base,
        W.AnalysisOf(images, detector.value, types), now)
    else Touch(db, id, SetStatus(ERREUR), now)
  }

  /** There are images, and the engine accepts every detection. */
  ghost predicate Computes(images: seq<ImageId>, model: W.Model, types: map<Code, real>) {
    images != [] && AllInRange(W.RunInputs(images, model, types))
  }

  /** And there is a model to compute with. */
  ghost predicate Analysable(images: seq<ImageId>, detector: Option<W.Model>, types: map<Code, real>) {
    detector.Some? && Computes(images, detector.value, types)
  }

  // ---- The store

  class Store {
    var rows: map<Id, Row>
    var images: map<ImageId, Id>
    var detections: map<RowId, W.DetectionRow>
    var scores: map<RowId, ScoreRow>
    var summaries: map<RowId, SummaryRow>

    function View(): Db
      reads this
    {
      Db(rows, images, detections, scores, summaries)
    }

    constructor ()
      ensures View() == Db(map[], map[], map[], map[], map[])
    {
      rows, images, detections, scores, summaries := map[], map[], map[], map[], map[];
    }

    /** `create`: a row with the defaults of its table. */
    method Create(id: Id, weather: Option<string>, notes: Option<string>, now: nat)
      requires id !in rows
      modifies this`rows
      ensures View() == old(View()).(rows := old(rows)[id := Row(EN_ATTENTE, weather, notes, None, now, 1)])
    {
      rows := rows[id := Row(EN_ATTENTE, weather, notes, None, now, 1)];
    }

    /** `get_or_404`: a soft-deleted row is not found. */
    method GetOr404(id: Id) returns (r: Result<Row, ApiError>)
      ensures r == if Visible(View(), id) then Ok(rows[id]) else Err(NotFound)
    {
      if id !in rows || rows[id].deletedAt.Some? {
        return Err(NotFound);
      }
      return Ok(rows[id]);
    }

    /** An update of one row through its triggers. */
    method Write(id: Id, change: Change, now: nat)
      requires id in rows
      modifies this`rows
      ensures View() == Touch(old(View()), id, change, now)
      ensures id in rows
      ensures change.SetDetails? ==>
        && rows[id].weather == (if change.weather.Some? then change.weather else old(rows)[id].weather)
        && rows[id].notes == (if change.notes.Some? then change.notes else old(rows)[id].notes)
        && rows[id].status == old(rows)[id].status && rows[id].deletedAt == old(rows)[id].deletedAt
      ensures change.SetStatus? || change.SetDeleted? ==>
        && rows[id].weather == old(rows)[id].weather && rows[id].notes == old(rows)[id].notes
        && rows[id].status == (if change.SetStatus? then change.status else old(rows)[id].status)
        && rows[id].deletedAt == (if change.SetDeleted? then Some(change.at) else old(rows)[id].deletedAt)
    {
      var row := rows[id];
      var proposed := row;
      match change {
        case SetStatus(s) => proposed := proposed.(status := s);
        case SetDeleted(t) => proposed := proposed.(deletedAt := Some(t));
        case SetDetails(w, n) =>
          if w.Some? { proposed := proposed.(weather := w); }
          if n.Some? { proposed := proposed.(notes := n); }
      }
      var next := BeforeUpdate(row, proposed, now);
      rows := rows[id := next];
    }

    /** `update_with_version`: no row matches, 409; otherwise the write. */
    method UpdateWithVersion(id: Id, expected: int, change: Change, now: nat) returns (r: Result<(), ApiError>)
      modifies this`rows
      ensures r.Ok? <==> Current(old(View()), id, expected)
      ensures View() == if r.Ok? then Touch(old(View()), id, change, now) else old(View())
      ensures r.Err? ==> r.error == Stale
    {
      if id !in rows || rows[id].version != expected {
        return Err(Stale);
      }
      Write(id, change, now);
      return Ok(());
    }

    /** The whole of `soft_delete`, when nothing runs between its read and its write. */
    method SoftDelete(id: Id, now: nat) returns (r: Result<(), ApiError>)
      modifies this`rows
      ensures r.Ok? <==> Visible(old(View()), id)
      ensures View() == if r.Ok? then Touch(old(View()), id, SetDeleted(now), now) else old(View())
      ensures !Visible(View(), id)
      ensures r.Ok? ==>
        var before := old(rows)[id];
        id in rows && rows[id] == before.(deletedAt := Some(now), updatedAt := now, version := before.version + 1)
    {
      var seen := GetOr404(id);
      if seen.Err? {
        return Err(seen.error);
      }
      Write(id, SetDeleted(now), now);
      return Ok(());
    }

    /** The whole of a PATCH: read, versioned write unless the body is empty, read again. */
    method Update(id: Id, expected: int, weather: Option<string>, notes: Option<string>, now: nat)
      returns (r: Result<Row, ApiError>)
      modifies this`rows
      ensures
        var empty := weather.None? && notes.None?;
        && (r.Ok? <==> Visible(old(View()), id) && (empty || Current(old(View()), id, expected)))
        && View() == (if r.Ok? && !empty then Touch(old(View()), id, SetDetails(weather, notes), now) else old(View()))
      ensures r.Ok? ==> id in rows && r.value == rows[id]
      ensures r.Ok? ==>
        var before := old(rows)[id];
        && r.value.weather == (if weather.Some? then weather else before.weather)
        && r.value.notes == (if notes.Some? then notes else before.notes)
        && r.value.status == before.status && r.value.deletedAt == before.deletedAt
        && r.value.version == before.version +
             if r.value.weather == before.weather && r.value.notes == before.notes then 0 else 1
      ensures r.Err? ==> r.error == if Visible(old(View()), id) then Stale else NotFound
    {
      if id in rows { VersionCounts(rows[id], SetDetails(weather, notes), now); }
      r := GetOr404(id);
      if r.Err? {
        return;
      }
      if weather.Some? || notes.Some? {
        var written := UpdateWithVersion(id, expected, SetDetails(weather, notes), now);
        if written.Err? {
          return Err(written.error);
        }
      }
      r := GetOr404(id);
    }

    method AddImage(image: ImageId, id: Id)
      requires image !in images
      modifies this`images
      ensures View() == old(View()).(images := old(images)[image := id])
    {
      images := images[image := id];
    }

    /** `upload_image`, for a file that passed its checks. */
    method Upload(image: ImageId, id: Id) returns (r: Result<(), ApiError>)
      requires image !in images
      modifies this`images
      ensures r.Ok? <==> Visible(old(View()), id)
      ensures View() == if r.Ok? then old(View()).(images := old(images)[image := id]) else old(View())
    {
      var seen := GetOr404(id);
      if seen.Err? {
        return Err(seen.error);
      }
      AddImage(image, id);
      return Ok(());
    }

    /** The reads and refusals of `request_analysis`. */
    method CheckRequest(id: Id) returns (r: Result<Row, ApiError>)
      ensures r.Ok? <==> Visible(View(), id) && ImagesOf(View(), id) != {} && rows[id].status in {EN_ATTENTE, ERREUR}
      ensures r.Ok? ==> r.value == rows[id]
      ensures !Visible(View(), id) ==> r == Err(NotFound)
      ensures Visible(View(), id) && ImagesOf(View(), id) == {} ==> r == Err(WithoutImages)
      ensures r.Err? && Visible(View(), id) && ImagesOf(View(), id) != {} ==> r.error == WrongStatus(rows[id].status)
    {
      var seen := GetOr404(id);
      if seen.Err? {
        return seen;
      }
      if ImagesOf(View(), id) == {} {
        return Err(WithoutImages);
      }
      if seen.value.status != EN_ATTENTE && seen.value.status != ERREUR {
        return Err(WrongStatus(seen.value.status));
      }
      return seen;
    }

    /** `request_analysis` when nothing runs in between: the row that passed its checks is still there. */
    method RequestAnalysis(id: Id, now: nat) returns (r: Result<(), ApiError>)
      modifies this`rows
      ensures r.Ok? <==> RequestCheck(old(View()), id).Ok?
      ensures r.Ok? ==> View() == Touch(old(View()), id, SetStatus(EN_COURS), now) && rows[id].status == EN_COURS
      ensures r.Err? ==> View() == old(View()) && r.error == RequestCheck(View(), id).error
    {
      var seen := CheckRequest(id);
      if seen.Err? {
        return Err(seen.error);
      }
      r := UpdateWithVersion(id, seen.value.version, SetStatus(EN_COURS), now);
    }

    /**
     The commit of a run: every delete and insert and the status, or nothing at all when a unique
     constraint refuses the new rows.
     */
    method CommitAnalysis(id: Id, loaded: Status, drop: Dropped, base: RowId, a: W.Analysis, now: nat)
      returns (ok: bool)
      requires id in rows && FreshIds(View(), base, |a.rows|)
      modifies this
      ensures ok <==> !BreaksUnique(old(View()), id, drop)
      ensures View() == if ok then WithAnalysis(old(View()), id, loaded, drop, base, a, now) else old(View())
    {
      if ScoresOf(View(), id) - drop.scores != {} || SummariesOf(View(), id) - drop.summaries != {} {
        return false;
      }
      detections := detections - drop.detections;
      for k := 0 to |a.rows|
        invariant detections == Inserted(old(detections) - drop.detections, base, a.rows[..k])
        invariant rows == old(rows) && images == old(images) && scores == old(scores) && summaries == old(summaries)
      {
        assert a.rows[..k + 1][..k] == a.rows[..k];
        detections := detections[base + k := a.rows[k]];
      }
      assert a.rows[..|a.rows|] == a.rows;
      scores := (scores - drop.scores)[base := ScoreRow(id, a.pci.score, a.pci.severity, a.pci.priority)];
      summaries := (summaries - drop.summaries)[
        base := SummaryRow(id, a.total, a.dominant, a.pci.severity, a.confidence)];
      if loaded != TERMINEE {
        Write(id, SetStatus(TERMINEE), now);
      }
      return true;
    }

    /**
     `run_analysis` undisturbed: one transaction, and after any failure a rollback and the write of ERREUR.
     `queried` is the answer of the image query in whatever order it came; `detector` is None when no model
     can be loaded.
     */
    method RunAnalysis(
      id: Id, queried: seq<ImageId>, detector: Option<W.Model>, types: map<Code, real>, base: RowId, now: nat)
      requires id in rows && detector.Some? ==> FreshIds(View(), base, |W.Collected(queried, detector.value, types)|)
      modifies this
      ensures View() == RunOf(old(View()), id, queried, detector, types, base, now)
    {
      hide WithAnalysis, Touch, FreshIds, W.Collected, AllInRange, PciOf, W.DominantOf, W.MeanConfidence, Visible,
           ImagesOf, DetectionsOf;
      if id !in rows {
        return;
      }
      if queried == [] || detector.None? {
        Write(id, SetStatus(ERREUR), now);
        return;
      }
      var drop := ToDrop(View(), id, queried);
      var a := W.Analyse(queried, detector.value, types);
      if a.Err? {
        Write(id, SetStatus(ERREUR), now);
        return;
      }
      var ok := CommitAnalysis(id, rows[id].status, drop, base, a.value, now);
    }
  }
}

/**
 The service calls one at a time: when nothing comes in between, the read and the write of a call do to the
 tables exactly what the sequential methods of the store do. And one whole life of an inspection, from an empty
 database to its results.
 */
module ServiceRun {
  import opened Wrappers
  import opened Ordering
  import opened PciEngine
  import W = AnalysisWorker
  import opened InspectionStore
  import opened Lifecycle
  import opened DecisionChain
  import opened AnalysisRun

  lemma CreateAlone(w: World, id: Id, weather: Option<string>, notes: Option<string>, now: nat)
    requires id !in w.db.rows
    ensures Enabled(w, Create(id, weather, notes, now))
    ensures
      Next(w, Create(id, weather, notes, now)) ==
      w.(db := w.db.(rows := w.db.rows[id := Row(EN_ATTENTE, weather, notes, None, now, 1)]))
  {
  }

  /** A step that begins a call and one that ends it. */
  function Both(begin: Step, end: Step): seq<Step> {
    [begin] + ([end] + [])
  }

  lemma BothRun(w: World, begin: Step, end: Step)
    requires Enabled(w, begin) && Enabled(Next(w, begin), end)
    ensures Runs(w, Both(begin, end)) && After(w, Both(begin, end)) == Next(Next(w, begin), end)
  {
    hide Next, Enabled;
    NoRuns(Next(Next(w, begin), end));
    RunsCons(Next(w, begin), end, []);
    RunsCons(w, begin, [end] + []);
  }

  /** An upload: 404 for an inspection that is not visible, otherwise the image belongs to it and nothing else changed. */
  lemma UploadAlone(w: World, c: CallId, id: Id, image: ImageId)
    requires c !in w.calls && image !in w.db.images
    ensures Enabled(w, BeginUpload(c, id))
    ensures !Visible(w.db, id) ==> Next(w, BeginUpload(c, id)) == w
    ensures Visible(w.db, id) ==>
      var steps := Both(BeginUpload(c, id), EndUpload(c, image));
      Runs(w, steps) && After(w, steps) == w.(db := w.db.(images := w.db.images[image := id]))
  {
    hide Runs, After;
    if Visible(w.db, id) {
      var row := w.db.rows[id];
      assert w.calls[c := Uploading(id, row)] - {c} == w.calls;
      BothRun(w, BeginUpload(c, id), EndUpload(c, image));
    }
  }

  /** A PATCH: 404, a no-op for an empty body, nothing for a stale version, or the update of that row. */
  lemma PatchAlone(
    w: World, c: CallId, id: Id, expected: int, weather: Option<string>, notes: Option<string>, now: nat)
    requires c !in w.calls
    ensures Enabled(w, BeginPatch(c, id, expected, weather, notes))
    ensures !Visible(w.db, id) ==> Next(w, BeginPatch(c, id, expected, weather, notes)) == w
    ensures Visible(w.db, id) ==>
      var steps := Both(BeginPatch(c, id, expected, weather, notes), EndPatch(c, now));
      && Runs(w, steps)
      && After(w, steps) ==
           if (weather.None? && notes.None?) || w.db.rows[id].version != expected then w
           else w.(db := Touch(w.db, id, SetDetails(weather, notes), now))
  {
    hide Runs, After, Touch;
    if Visible(w.db, id) {
      var row := w.db.rows[id];
      assert w.calls[c := Patching(id, row, expected, weather, notes)] - {c} == w.calls;
      BothRun(w, BeginPatch(c, id, expected, weather, notes), EndPatch(c, now));
    }
  }

  /** A delete: 404, or the mark on that row. */
  lemma DeleteAlone(w: World, c: CallId, id: Id, now: nat)
    requires c !in w.calls
    ensures Enabled(w, BeginDelete(c, id))
    ensures !Visible(w.db, id) ==> Next(w, BeginDelete(c, id)) == w
    ensures Visible(w.db, id) ==>
      var steps := Both(BeginDelete(c, id), EndDelete(c, now));
      Runs(w, steps) && After(w, steps) == w.(db := Touch(w.db, id, SetDeleted(now), now))
  {
    hide Runs, After, Touch;
    if Visible(w.db, id) {
      var row := w.db.rows[id];
      assert w.calls[c := Deleting(id, row)] - {c} == w.calls;
      BothRun(w, BeginDelete(c, id), EndDelete(c, now));
    }
  }

  /** A request: nothing when its checks refuse it, otherwise EN_COURS and a queued run. */
  lemma RequestAlone(w: World, c: CallId, r: RunId, id: Id, now: nat)
    requires c !in w.calls && r !in w.runs
    ensures Enabled(w, BeginRequest(c, id))
    ensures RequestCheck(w.db, id).Err? ==> Next(w, BeginRequest(c, id)) == w
    ensures RequestCheck(w.db, id).Ok? ==>
      var steps := Both(BeginRequest(c, id), EndRequest(c, r, now));
      && Runs(w, steps)
      && After(w, steps) == World(Touch(w.db, id, SetStatus(EN_COURS), now), w.calls, w.runs[r := Queued(id)])
  {
    hide Runs, After, Touch, RequestCheck;
    if RequestCheck(w.db, id).Ok? {
      GrantAlone(w, c, r, id, now);
      BothRun(w, BeginRequest(c, id), EndRequest(c, r, now));
    }
  }

  /** A call given up after its read, whatever came in between, leaves nothing behind but what the others did. */
  lemma AbandonLeaves(w: World, c: CallId)
    requires c in w.calls
    ensures Enabled(w, Abandon(c))
    ensures
      var v := Next(w, Abandon(c));
      v.db == w.db && v.runs == w.runs && c !in v.calls && v.calls.Keys == w.calls.Keys - {c}
      && forall d :: d in v.calls ==> v.calls[d] == w.calls[d]
  {
  }

  // ---- A whole life

  /** The database after one inspection was created and one image uploaded. */
  function OneImage(image: ImageId): World {
    World(Db(map[0 := Row(EN_ATTENTE, None, None, None, 0, 1)], map[image := 0], map[], map[], map[]), map[], map[])
  }

  function Opening(image: ImageId): seq<Step> {
    [Create(0, None, None, 0)] + Both(BeginUpload(0, 0), EndUpload(0, image))
  }

  lemma Opens(image: ImageId)
    ensures Runs(EMPTY, Opening(image)) && After(EMPTY, Opening(image)) == OneImage(image)
    ensures Inv(OneImage(image))
  {
    hide Runs, After, Next, Enabled, Inv;
    CreateAlone(EMPTY, 0, None, None, 0);
    var created := Next(EMPTY, Create(0, None, None, 0));
    UploadAlone(created, 0, 0, image);
    RunsCons(EMPTY, Create(0, None, None, 0), Both(BeginUpload(0, 0), EndUpload(0, image)));
    InvInitially();
    StepsKeep(EMPTY, Opening(image));
    assert created.db.images[image := 0] == map[image := 0];
  }

  lemma {:induction false} RunsConcat(w: World, a: seq<Step>, b: seq<Step>)
    requires Runs(w, a) && Runs(After(w, a), b)
    ensures Runs(w, a + b) && After(w, a + b) == After(After(w, a), b)
    decreases |a|
  {
    hide Next, Enabled;
    if a == [] {
      assert a + b == b;
    } else {
      RunsConcat(Next(w, a[0]), a[1..], b);
      RunsCons(w, a[0], a[1..] + b);
      assert [a[0]] + (a[1..] + b) == a + b;
    }
  }

  lemma OneImageReady(image: ImageId)
    ensures ImagesOf(OneImage(image).db, 0) == Elements([image])
    ensures RequestCheck(OneImage(image).db, 0) == Ok(Row(EN_ATTENTE, None, None, None, 0, 1))
  {
    assert image in ImagesOf(OneImage(image).db, 0);
  }

  /**
   From an empty database: create, upload, request, start, clear and commit is a run. It ends TERMINEE at version 3
   with one score, one summary and the detections it counts, all of the analysis of that image.
   */
  lemma WholeLife(image: ImageId, model: W.Model, types: map<Code, real>) returns (steps: seq<Step>)
    requires ValidRun([image], model, types)
    ensures Runs(EMPTY, steps)
    ensures
      var v, a := After(EMPTY, steps), W.AnalysisOf([image], model, types);
      && v.calls == map[] && v.runs == map[]
      && 0 in v.db.rows && v.db.rows[0].status == TERMINEE && v.db.rows[0].version == 3
      && image in v.db.images && v.db.images[image] == 0
      && Stores(v.db, 0, 0, a) && Complete(v.db, 0)
  {
    hide *;
    Opens(image);
    var w := OneImage(image);
    var rest := OneImageRun(image, model, types);
    RunsConcat(EMPTY, Opening(image), rest);
    steps := Opening(image) + rest;
    StepsKeep(w, rest);
    Finished(After(w, rest));
    OneImageFresh(image, 0);
    ImagesStayAlong(w, rest, image);
  }

  lemma OneImageRun(image: ImageId, model: W.Model, types: map<Code, real>) returns (rest: seq<Step>)
    requires ValidRun([image], model, types)
    ensures Runs(OneImage(image), rest)
    ensures
      var v, a := After(OneImage(image), rest), W.AnalysisOf([image], model, types);
      && v.calls == map[] && v.runs == map[]
      && 0 in v.db.rows && v.db.rows[0].status == TERMINEE && v.db.rows[0].version == 3 && Stores(v.db, 0, 0, a)
  {
    hide *;
    Opens(image);
    OneImageReady(image);
    OneImageFresh(image, |W.Collected([image], model, types)|);
    RequestEnds(OneImage(image), 0, 0, 0, [image], model, types, 0, 1, 2);
    rest := WholeRequest(0, 0, 0, [image], model, types, 0, 1, 2);
    AnalysedIs(OneImage(image), After(OneImage(image), rest), 0, 0, W.AnalysisOf([image], model, types));
  }

  lemma OneImageFresh(image: ImageId, n: nat)
    ensures FreshIds(OneImage(image).db, 0, n)
    ensures 0 !in OneImage(image).calls && 0 !in OneImage(image).runs
    ensures OneImage(image).calls == map[] && OneImage(image).runs == map[]
    ensures 0 in OneImage(image).db.rows && OneImage(image).db.rows[0].version == 1
    ensures image in OneImage(image).db.images && OneImage(image).db.images[image] == 0
  {
  }

  lemma Finished(v: World)
    requires Inv(v) && 0 in v.db.rows && v.db.rows[0].status == TERMINEE
    ensures Complete(v.db, 0)
  {
    hide Linked, CallSound, Exclusive, RunSound, Complete, Bare;
    assert Agree(v.db, 0);
  }

  lemma CommitImages(w: World, s: Step)
    requires Enabled(w, s) && s.CommitRun?
    ensures Next(w, s).db.images == w.db.images
  {
    hide Computes, BreaksUnique, FreshIds, Updated, Inserted, W.AnalysisOf, W.Collected;
  }

  lemma OtherImages(w: World, s: Step)
    requires Enabled(w, s) && !s.CommitRun? && !s.EndUpload?
    ensures Next(w, s).db.images == w.db.images
  {
    hide Committed, FreshIds, Updated, RequestCheck, ToDrop, ImagesOf, Started;
  }

  /** An uploaded image stays with its inspection. */
  lemma ImagesStay(w: World, s: Step, image: ImageId)
    requires Enabled(w, s) && image in w.db.images
    ensures image in Next(w, s).db.images && Next(w, s).db.images[image] == w.db.images[image]
  {
    if s.CommitRun? {
      hide *;
      CommitImages(w, s);
    } else if s.EndUpload? {
      assert s.image !in w.db.images;
    } else {
      hide *;
      OtherImages(w, s);
    }
  }

  lemma {:induction false} ImagesStayAlong(w: World, steps: seq<Step>, image: ImageId)
    requires Runs(w, steps) && image in w.db.images
    ensures image in After(w, steps).db.images && After(w, steps).db.images[image] == w.db.images[image]
    decreases |steps|
  {
    hide Next, Enabled;
    if steps != [] {
      ImagesStay(w, steps[0], image);
      ImagesStayAlong(Next(w, steps[0]), steps[1..], image);
    }
  }
}

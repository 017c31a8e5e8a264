/**
 Concurrent registrations, promotions and loads as interleaved steps. A promotion is the read of its
 model, the snapshot of its retiring update, the update once no other transaction holds those rows, the
 crowning under the unique partial index, and the commit or an abort. A registration is its check, the
 two writes to storage and the insert under the unique name and version.
 */
module RegistryProtocol {
  import opened ModelRegistry

  type TxId = nat

  datatype Promotion =
    | Chosen(id: Id)
    | Snapshot(id: Id, candidates: set<Id>)
    | Retired(id: Id, retired: set<Id>)
    | Crowned(id: Id, retired: set<Id>)

  datatype Stage = Checked | WeightsPut | ConfigPut

  datatype Registration = Registration(name: string, version: string, artifacts: Artifacts, stage: Stage)

  /** `given` records what the caller of `register` handed over for each model that was inserted. */
  datatype World = World(
    bucket: string, models: map<Id, Model>, storage: map<Key, Blob>,
    promotions: map<TxId, Promotion>, registrations: map<TxId, Registration>,
    cache: map<Id, Loaded>, disk: map<Id, Bytes>, given: map<Id, Artifacts>)

  datatype Step =
    | BeginPromote(t: TxId, id: Id)
    | TakeSnapshot(t: TxId)
    | Retire(t: TxId)
    | Crown(t: TxId)
    | Commit(t: TxId)
    | AbortPromote(t: TxId)
    | BeginRegister(t: TxId, name: string, version: string, artifacts: Artifacts)
    | PutWeights(t: TxId)
    | PutConfig(t: TxId)
    | Insert(t: TxId, id: Id)
    | AbortRegister(t: TxId)
    | Load(id: Id, configReadable: bool)
    | Restart

  function Start(bucket: string): World {
    World(bucket, map[], map[], map[], map[], map[], map[], map[])
  }

  // ---- Row locks and the unique index

  /** The rows an open promotion has updated and not yet committed. */
  function Locked(p: Promotion): set<Id> {
    match p
    case Chosen(_) => {}
    case Snapshot(_, _) => {}
    case Retired(_, retired) => retired
    case Crowned(id, retired) => retired + {id}
  }

  ghost predicate LockedByOther(w: World, t: TxId, m: Id) {
    exists u :: u in w.promotions && u != t && m in Locked(w.promotions[u])
  }

  /** Crowning waits for the row itself, for other uncommitted actives, and for active rows others are retiring. */
  ghost predicate MayCrown(w: World, t: TxId, id: Id) {
    && !LockedByOther(w, t, id)
    && (forall u :: u in w.promotions && u != t ==> !w.promotions[u].Crowned?)
    && (forall m :: m in ActiveIds(w.models) ==> !LockedByOther(w, t, m))
  }

  ghost predicate Enabled(w: World, s: Step) {
    match s
    case BeginPromote(t, id) => t !in w.promotions
    case TakeSnapshot(t) => t in w.promotions && w.promotions[t].Chosen?
    case Retire(t) =>
      t in w.promotions && w.promotions[t].Snapshot?
      && forall m :: m in w.promotions[t].candidates ==> !LockedByOther(w, t, m)
    case Crown(t) => t in w.promotions && w.promotions[t].Retired? && MayCrown(w, t, w.promotions[t].id)
    case Commit(t) => t in w.promotions && w.promotions[t].Crowned?
    case AbortPromote(t) => t in w.promotions
    case BeginRegister(t, _, _, _) => t !in w.registrations
    case PutWeights(t) => t in w.registrations && w.registrations[t].stage == Checked
    case PutConfig(t) => t in w.registrations && w.registrations[t].stage == WeightsPut
    case Insert(t, id) => t in w.registrations && w.registrations[t].stage == ConfigPut && id !in w.models
    case AbortRegister(t) => t in w.registrations
    case Load(id, _) => id in w.models
    case Restart => true
  }

  /** What the waiting update finally retires: the candidates that are still active. */
  function Retiring(w: World, p: Promotion): Promotion
    requires p.Snapshot?
  {
    Retired(p.id, set m | m in p.candidates && m in w.models && w.models[m].active)
  }

  /** A committed active row that this transaction neither retired nor crowns violates uq_one_active_model. */
  function Crowning(w: World, t: TxId): World
    requires t in w.promotions && w.promotions[t].Retired?
  {
    var p := w.promotions[t];
    if ActiveIds(w.models) - p.retired - {p.id} != {} then w.(promotions := w.promotions - {t})
    else w.(promotions := w.promotions[t := Crowned(p.id, p.retired)])
  }

  /** A miss loads: weights from storage, unless the file is already on disk; a failed read loads nothing. */
  function Loading(w: World, id: Id, configReadable: bool): World
    requires id in w.models
  {
    if id in w.cache then w
    else
      var fetched := ArtifactsAt(w.storage, w.models[id].path, configReadable);
      if fetched.Err? then w
      else
        var disk := if id in w.disk then w.disk else w.disk[id := fetched.value.weights];
        w.(disk := disk, cache := w.cache[id := Loaded(disk[id], fetched.value.mapping)])
  }

  ghost function Next(w: World, s: Step): World
    requires Enabled(w, s)
  {
    match s
    case BeginPromote(t, id) =>
      if id !in w.models || w.models[id].active then w else w.(promotions := w.promotions[t := Chosen(id)])
    case TakeSnapshot(t) =>
      w.(promotions := w.promotions[t := Snapshot(w.promotions[t].id, ActiveIds(w.models))])
    case Retire(t) => w.(promotions := w.promotions[t := Retiring(w, w.promotions[t])])
    case Crown(t) => Crowning(w, t)
    case Commit(t) =>
      var p := w.promotions[t];
      if p.id !in w.models then w.(promotions := w.promotions - {t})
      else w.(models := Promoted(w.models, p.retired, p.id), promotions := w.promotions - {t})
    case AbortPromote(t) => w.(promotions := w.promotions - {t})
    case BeginRegister(t, name, version, artifacts) =>
      if Registered(w.models, name, version) then w
      else w.(registrations := w.registrations[t := Registration(name, version, artifacts, Checked)])
    case PutWeights(t) =>
      var r := w.registrations[t];
      w.(storage := w.storage[WeightsKey(w.bucket, r.name, r.version) := Weights(r.artifacts.weights)],
         registrations := w.registrations[t := r.(stage := WeightsPut)])
    case PutConfig(t) =>
      var r := w.registrations[t];
      w.(storage := w.storage[ConfigKey(w.bucket, r.name, r.version) := Config(r.artifacts.mapping)],
         registrations := w.registrations[t := r.(stage := ConfigPut)])
    case Insert(t, id) =>
      var r := w.registrations[t];
      if Registered(w.models, r.name, r.version) then w.(registrations := w.registrations - {t})
      else w.(models := w.models[id := NewModel(w.bucket, r.name, r.version)], given := w.given[id := r.artifacts],
              registrations := w.registrations - {t})
    case AbortRegister(t) => w.(registrations := w.registrations - {t})
    case Load(id, readable) => Loading(w, id, readable)
    case Restart => w.(cache := map[])
  }

  ghost predicate Runs(w: World, steps: seq<Step>)
    decreases |steps|
  {
    steps == [] || (Enabled(w, steps[0]) && Runs(Next(w, steps[0]), steps[1..]))
  }

  ghost function After(w: World, steps: seq<Step>): World
    requires Runs(w, steps)
    decreases |steps|
  {
    if steps == [] then w else After(Next(w, steps[0]), steps[1..])
  }

  lemma RunsCons(w: World, s: Step, rest: seq<Step>)
    requires Enabled(w, s) && Runs(Next(w, s), rest)
    ensures Runs(w, [s] + rest) && After(w, [s] + rest) == After(Next(w, s), rest)
  {
  }

  // ---- One active model

  /** At most one model is active, and active is the same as PRODUCTION. */
  ghost predicate OneActive(models: map<Id, Model>) {
    && (forall m, n :: m in models && n in models && models[m].active && models[n].active ==> m == n)
    && (forall m :: m in models ==> (models[m].active <==> models[m].status == PRODUCTION))
  }

  ghost predicate SomeActive(models: map<Id, Model>) {
    exists m :: m in models && models[m].active
  }

  /** At most one promotion is past the index, and then it has retired every other active row. */
  ghost predicate CrownSafe(w: World) {
    && (forall t, u :: t in w.promotions && u in w.promotions && w.promotions[t].Crowned? && w.promotions[u].Crowned? ==> t == u)
    && (forall t :: t in w.promotions ==> w.promotions[t].id in w.models)
    && (forall t :: t in w.promotions && w.promotions[t].Crowned? ==>
          ActiveIds(w.models) <= w.promotions[t].retired + {w.promotions[t].id})
  }

  ghost predicate PromotionInv(w: World) {
    OneActive(w.models) && CrownSafe(w)
  }

  /** The commit of a crowned promotion leaves exactly its model active. */
  lemma CommitCrowns(models: map<Id, Model>, retired: set<Id>, id: Id)
    requires OneActive(models) && id in models && ActiveIds(models) <= retired + {id}
    ensures
      var after := Promoted(models, retired, id);
      && OneActive(after) && ActiveIds(after) == {id} && after[id].status == PRODUCTION
      && after.Keys == models.Keys
      && (forall m :: m in models && m != id && models[m].active ==> after[m].status == DEPRECATED)
      && (forall m :: m in models && m != id && !models[m].active && m !in retired ==> after[m] == models[m])
      && (forall m :: m in models ==>
            after[m].name == models[m].name && after[m].version == models[m].version && after[m].path == models[m].path)
  {
    var after := Promoted(models, retired, id);
    assert forall m :: m in models && models[m].active ==> m in ActiveIds(models);
    assert after[id].active;
  }

  lemma SameRegistry(w: World, v: World)
    requires PromotionInv(w) && v.models == w.models && v.promotions == w.promotions
    ensures PromotionInv(v)
  {
  }

  lemma Advance(w: World, t: TxId, p: Promotion)
    requires PromotionInv(w) && p.id in w.models && !p.Crowned?
    ensures PromotionInv(w.(promotions := w.promotions[t := p]))
  {
  }

  lemma Leave(w: World, t: TxId)
    requires PromotionInv(w)
    ensures PromotionInv(w.(promotions := w.promotions - {t}))
  {
  }

  lemma CrownKeeps(w: World, t: TxId)
    requires PromotionInv(w) && Enabled(w, Crown(t))
    ensures PromotionInv(Crowning(w, t))
  {
    hide LockedByOther;
    var p := w.promotions[t];
    if ActiveIds(w.models) - p.retired - {p.id} != {} {
      Leave(w, t);
    } else {
      assert forall m :: m in ActiveIds(w.models) ==> m !in ActiveIds(w.models) - p.retired - {p.id};
    }
  }

  lemma NewModelKeeps(models: map<Id, Model>, id: Id, m: Model)
    requires OneActive(models) && id !in models && !m.active && m.status == STAGING
    ensures OneActive(models[id := m]) && ActiveIds(models[id := m]) == ActiveIds(models)
    ensures SomeActive(models) ==> SomeActive(models[id := m])
  {
    if SomeActive(models) {
      var k :| k in models && models[k].active;
      assert models[id := m][k].active;
    }
  }

  lemma InsertKeeps(w: World, v: World, id: Id, m: Model)
    requires PromotionInv(w) && id !in w.models && !m.active && m.status == STAGING
    requires v.models == w.models[id := m] && v.promotions == w.promotions
    ensures PromotionInv(v) && (SomeActive(w.models) ==> SomeActive(v.models))
  {
    hide OneActive, SomeActive;
    NewModelKeeps(w.models, id, m);
  }

  lemma InsertSafe(w: World, t: TxId, id: Id)
    requires PromotionInv(w) && Enabled(w, Insert(t, id))
    ensures PromotionInv(Next(w, Insert(t, id)))
    ensures SomeActive(w.models) ==> SomeActive(Next(w, Insert(t, id)).models)
  {
    hide LockedByOther, PathOf, PromotionInv, SomeActive, Registered;
    var r := w.registrations[t];
    var v := Next(w, Insert(t, id));
    if Registered(w.models, r.name, r.version) {
      SameRegistry(w, v);
    } else {
      InsertKeeps(w, v, id, NewModel(w.bucket, r.name, r.version));
    }
  }

  lemma CommitSafe(w: World, t: TxId)
    requires PromotionInv(w) && Enabled(w, Commit(t))
    ensures PromotionInv(Next(w, Commit(t))) && SomeActive(Next(w, Commit(t)).models)
    ensures ActiveIds(Next(w, Commit(t)).models) == {w.promotions[t].id}
  {
    hide LockedByOther;
    var p := w.promotions[t];
    CommitCrowns(w.models, p.retired, p.id);
    assert Promoted(w.models, p.retired, p.id)[p.id].active;
  }

  lemma OtherPromotionSteps(w: World, s: Step)
    requires PromotionInv(w) && Enabled(w, s) && !s.Commit? && !s.Insert?
    ensures PromotionInv(Next(w, s)) && Next(w, s).models == w.models
  {
    hide PromotionInv, Registered, ArtifactsAt, WeightsKey, ConfigKey, LockedByOther, Loading, Crowning, Retiring, MayCrown;
    match s {
      case BeginPromote(t, id) => if id in w.models && !w.models[id].active { Advance(w, t, Chosen(id)); }
      case TakeSnapshot(t) =>
        PromotedKnown(w, t);
        Advance(w, t, Snapshot(w.promotions[t].id, ActiveIds(w.models)));
      case Retire(t) =>
        PromotedKnown(w, t);
        RetiringShape(w, w.promotions[t]);
        Advance(w, t, Retiring(w, w.promotions[t]));
      case Crown(t) =>
        CrownKeeps(w, t);
        CrowningShape(w, t);
      case AbortPromote(t) => Leave(w, t);
      case Load(id, readable) =>
        LoadingShape(w, id, readable);
        SameRegistry(w, Next(w, s));
      case BeginRegister(_, _, _, _) => SameRegistry(w, Next(w, s));
      case PutWeights(_) => SameRegistry(w, Next(w, s));
      case PutConfig(_) => SameRegistry(w, Next(w, s));
      case AbortRegister(_) => SameRegistry(w, Next(w, s));
      case Restart => SameRegistry(w, Next(w, s));
    }
  }

  lemma PromotedKnown(w: World, t: TxId)
    requires PromotionInv(w) && t in w.promotions
    ensures w.promotions[t].id in w.models
  {
  }

  lemma RetiringShape(w: World, p: Promotion)
    requires p.Snapshot?
    ensures Retiring(w, p).id == p.id && Retiring(w, p).Retired?
  {
  }

  lemma CrowningShape(w: World, t: TxId)
    requires t in w.promotions && w.promotions[t].Retired?
    ensures Crowning(w, t) == w.(promotions := Crowning(w, t).promotions)
  {
    hide ActiveIds;
  }

  lemma LoadingShape(w: World, id: Id, readable: bool)
    requires id in w.models
    ensures Loading(w, id, readable) == w.(cache := Loading(w, id, readable).cache, disk := Loading(w, id, readable).disk)
  {
  }

  /** One step: the invariant stays, an active model stays, only a commit moves the crown, and an abort changes no row. */
  lemma PromotionStep(w: World, s: Step)
    requires PromotionInv(w) && Enabled(w, s)
    ensures PromotionInv(Next(w, s))
    ensures SomeActive(w.models) ==> SomeActive(Next(w, s).models)
    ensures s.Commit? ==> ActiveIds(Next(w, s).models) == {w.promotions[s.t].id}
    ensures !s.Commit? && !s.Insert? ==> Next(w, s).models == w.models
  {
    hide PromotionInv, Next, SomeActive, LockedByOther, MayCrown;
    match s {
      case Commit(t) => CommitSafe(w, t);
      case Insert(t, id) => InsertSafe(w, t, id);
      case _ => OtherPromotionSteps(w, s);
    }
  }

  lemma {:induction false} PromotionSteps(w: World, steps: seq<Step>)
    requires PromotionInv(w) && Runs(w, steps)
    ensures PromotionInv(After(w, steps))
    ensures SomeActive(w.models) ==> SomeActive(After(w, steps).models)
    decreases |steps|
  {
    hide PromotionInv, SomeActive, Next, Enabled;
    if steps != [] {
      PromotionStep(w, steps[0]);
      PromotionSteps(Next(w, steps[0]), steps[1..]);
    }
  }

  /**
   Over every run from an empty registry: at most one model is active, active is PRODUCTION, and from the
   first committed promotion on exactly one model is active.
   */
  lemma SingleProduction(bucket: string, steps: seq<Step>, t: TxId, more: seq<Step>)
    requires Runs(Start(bucket), steps)
    ensures OneActive(After(Start(bucket), steps).models)
    ensures
      var w := After(Start(bucket), steps);
      Enabled(w, Commit(t)) && Runs(Next(w, Commit(t)), more) ==>
        var v := After(Next(w, Commit(t)), more);
        OneActive(v.models) && SomeActive(v.models)
  {
    hide Next, Enabled, CrownSafe, OneActive, SomeActive;
    StartSafe(bucket);
    PromotionSteps(Start(bucket), steps);
    var w := After(Start(bucket), steps);
    if Enabled(w, Commit(t)) && Runs(Next(w, Commit(t)), more) {
      CommitSafe(w, t);
      PromotionSteps(Next(w, Commit(t)), more);
    }
  }

  lemma StartSafe(bucket: string)
    ensures PromotionInv(Start(bucket))
  {
  }
}

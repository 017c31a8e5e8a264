/**
 The registry calls one at a time: when nothing comes in between, the steps of a registration, a promotion and a
 load do to the tables exactly what the sequential `Register`, `Promote` and `Get` do. And one run from an empty
 registry in which a configuration could not be read.
 */
module RegistryRun {
  import opened ModelRegistry
  import opened RegistryProtocol
  import opened CacheCoherence

  lemma NoSteps(w: World)
    ensures Runs(w, []) && After(w, []) == w
  {
  }

  // ---- Registration

  function RegisterSteps(t: TxId, name: string, version: string, a: Artifacts, id: Id): seq<Step> {
    [BeginRegister(t, name, version, a)] + ([PutWeights(t)] + ([PutConfig(t)] + ([Insert(t, id)] + [])))
  }

  /** The registration under way after its check and its puts. */
  function Registering(w: World, t: TxId, r: Registration, storage: map<Key, Blob>): World {
    w.(storage := storage, registrations := w.registrations[t := r])
  }

  lemma RegisterPuts(w: World, t: TxId, name: string, version: string, a: Artifacts)
    requires t !in w.registrations && !Registered(w.models, name, version)
    ensures
      var r := Registration(name, version, a, Checked);
      var begun := Registering(w, t, r, w.storage);
      var one := Registering(w, t, r.(stage := WeightsPut), w.storage[WeightsKey(w.bucket, name, version) := Weights(a.weights)]);
      var two := Registering(w, t, r.(stage := ConfigPut), Stored(w.storage, w.bucket, name, version, a));
      && Enabled(w, BeginRegister(t, name, version, a)) && Next(w, BeginRegister(t, name, version, a)) == begun
      && Enabled(begun, PutWeights(t)) && Next(begun, PutWeights(t)) == one
      && Enabled(one, PutConfig(t)) && Next(one, PutConfig(t)) == two
  {
    hide WeightsKey, ConfigKey, Registered;
  }

  lemma RegisterInserts(w: World, t: TxId, r: Registration, storage: map<Key, Blob>, id: Id)
    requires t !in w.registrations && id !in w.models && !Registered(w.models, r.name, r.version) && r.stage == ConfigPut
    ensures
      var two := Registering(w, t, r, storage);
      && Enabled(two, Insert(t, id))
      && Next(two, Insert(t, id)) ==
           w.(storage := storage, models := w.models[id := NewModel(w.bucket, r.name, r.version)], given := w.given[id := r.artifacts])
  {
    hide Registered, NewModel;
    assert w.registrations[t := r] - {t} == w.registrations;
  }

  /** A registration alone: refused at its check without a write, or both objects and the row. */
  lemma RegisterAlone(w: World, t: TxId, name: string, version: string, a: Artifacts, id: Id)
    requires t !in w.registrations && id !in w.models
    ensures Registered(w.models, name, version) ==>
      Enabled(w, BeginRegister(t, name, version, a)) && Next(w, BeginRegister(t, name, version, a)) == w
    ensures !Registered(w.models, name, version) ==>
      && Runs(w, RegisterSteps(t, name, version, a, id))
      && After(w, RegisterSteps(t, name, version, a, id)) ==
           w.(storage := Stored(w.storage, w.bucket, name, version, a),
              models := w.models[id := NewModel(w.bucket, name, version)], given := w.given[id := a])
  {
    hide Runs, After, Registered, NewModel, Stored, WeightsKey, LockedByOther, MayCrown;
    if !Registered(w.models, name, version) {
      hide Next, Enabled;
      RegisterPuts(w, t, name, version, a);
      var r := Registration(name, version, a, Checked);
      var begun := Registering(w, t, r, w.storage);
      var one := Registering(w, t, r.(stage := WeightsPut), w.storage[WeightsKey(w.bucket, name, version) := Weights(a.weights)]);
      var two := Registering(w, t, r.(stage := ConfigPut), Stored(w.storage, w.bucket, name, version, a));
      RegisterInserts(w, t, r.(stage := ConfigPut), Stored(w.storage, w.bucket, name, version, a), id);
      NoSteps(Next(two, Insert(t, id)));
      RunsCons(two, Insert(t, id), []);
      RunsCons(one, PutConfig(t), [Insert(t, id)] + []);
      RunsCons(begun, PutWeights(t), [PutConfig(t)] + ([Insert(t, id)] + []));
      RunsCons(w, BeginRegister(t, name, version, a), [PutWeights(t)] + ([PutConfig(t)] + ([Insert(t, id)] + [])));
    }
  }

  // ---- Promotion

  function PromoteSteps(t: TxId, id: Id): seq<Step> {
    [BeginPromote(t, id)] + ([TakeSnapshot(t)] + ([Retire(t)] + ([Crown(t)] + ([Commit(t)] + []))))
  }

  function Promoting(w: World, t: TxId, p: Promotion): World {
    w.(promotions := map[t := p])
  }

  lemma NoLocks(w: World, t: TxId, p: Promotion)
    ensures forall m :: !LockedByOther(Promoting(w, t, p), t, m)
    ensures MayCrown(Promoting(w, t, p), t, p.id)
  {
  }

  lemma PromoteOpens(w: World, t: TxId, id: Id)
    requires w.promotions == map[] && id in w.models && !w.models[id].active
    ensures
      var chosen, snapped := Promoting(w, t, Chosen(id)), Promoting(w, t, Snapshot(id, ActiveIds(w.models)));
      && Enabled(w, BeginPromote(t, id)) && Next(w, BeginPromote(t, id)) == chosen
      && Enabled(chosen, TakeSnapshot(t)) && Next(chosen, TakeSnapshot(t)) == snapped
  {
    hide ActiveIds, LockedByOther, MayCrown;
    assert map[][t := Chosen(id)] == map[t := Chosen(id)];
    assert map[t := Chosen(id)][t := Snapshot(id, ActiveIds(w.models))] == map[t := Snapshot(id, ActiveIds(w.models))];
  }

  lemma PromoteRetires(w: World, t: TxId, id: Id)
    ensures
      var active := ActiveIds(w.models);
      var snapped := Promoting(w, t, Snapshot(id, active));
      Enabled(snapped, Retire(t)) && Next(snapped, Retire(t)) == Promoting(w, t, Retired(id, active))
  {
    hide LockedByOther, MayCrown;
    var active := ActiveIds(w.models);
    var snapped := Promoting(w, t, Snapshot(id, active));
    NoLocks(w, t, Snapshot(id, active));
    assert snapped.promotions[t] == Snapshot(id, active);
    assert Retiring(snapped, Snapshot(id, active)).retired == active;
    assert snapped.promotions[t := Retired(id, active)] == map[t := Retired(id, active)];
  }

  lemma PromoteCrowns(w: World, t: TxId, id: Id)
    ensures
      var active := ActiveIds(w.models);
      var retired := Promoting(w, t, Retired(id, active));
      Enabled(retired, Crown(t)) && Next(retired, Crown(t)) == Promoting(w, t, Crowned(id, active))
  {
    hide LockedByOther, MayCrown;
    var active := ActiveIds(w.models);
    var retired := Promoting(w, t, Retired(id, active));
    NoLocks(w, t, Retired(id, active));
    assert ActiveIds(retired.models) - active - {id} == {};
    assert retired.promotions[t := Crowned(id, active)] == map[t := Crowned(id, active)];
  }

  lemma PromoteCommits(w: World, t: TxId, id: Id)
    requires w.promotions == map[] && id in w.models
    ensures
      var crowned := Promoting(w, t, Crowned(id, ActiveIds(w.models)));
      Enabled(crowned, Commit(t)) && Next(crowned, Commit(t)) == w.(models := Promoted(w.models, ActiveIds(w.models), id))
  {
    hide ActiveIds, Promoted;
    var p := Crowned(id, ActiveIds(w.models));
    assert map[t := p] - {t} == map[];
  }

  /** A promotion with no other open: refused without a trace, or the retirement and the crowning of `Promote`. */
  lemma PromoteAlone(w: World, t: TxId, id: Id)
    requires w.promotions == map[]
    ensures id !in w.models || w.models[id].active ==>
      Enabled(w, BeginPromote(t, id)) && Next(w, BeginPromote(t, id)) == w
    ensures id in w.models && !w.models[id].active ==>
      && Runs(w, PromoteSteps(t, id))
      && After(w, PromoteSteps(t, id)) == w.(models := Promoted(w.models, ActiveIds(w.models), id))
  {
    hide Runs, After, LockedByOther, MayCrown, ActiveIds, Promoted;
    if id in w.models && !w.models[id].active {
      hide Next, Enabled;
      var active := ActiveIds(w.models);
      PromoteOpens(w, t, id);
      PromoteRetires(w, t, id);
      PromoteCrowns(w, t, id);
      PromoteCommits(w, t, id);
      var crowned := Promoting(w, t, Crowned(id, active));
      NoSteps(Next(crowned, Commit(t)));
      RunsCons(crowned, Commit(t), []);
      RunsCons(Promoting(w, t, Retired(id, active)), Crown(t), [Commit(t)] + []);
      RunsCons(Promoting(w, t, Snapshot(id, active)), Retire(t), [Crown(t)] + ([Commit(t)] + []));
      RunsCons(Promoting(w, t, Chosen(id)), TakeSnapshot(t), [Retire(t)] + ([Crown(t)] + ([Commit(t)] + [])));
      RunsCons(w, BeginPromote(t, id), [TakeSnapshot(t)] + ([Retire(t)] + ([Crown(t)] + ([Commit(t)] + []))));
    }
  }

  /** An update that waited retires, of the rows it had seen active, those that still are. */
  lemma RetiresActive(w: World, t: TxId)
    requires Enabled(w, Retire(t))
    ensures
      var p, q := w.promotions[t], Next(w, Retire(t)).promotions[t];
      && q.Retired? && q.id == p.id
      && forall m :: m in q.retired <==> m in p.candidates && m in w.models && w.models[m].active
  {
    hide LockedByOther, ActiveIds;
  }

  // ---- Giving up

  /** An aborted promotion or registration is gone; rows, objects, cache and all other transactions are as they were. */
  lemma AbortLeaves(w: World, t: TxId)
    ensures t in w.promotions ==>
      && Enabled(w, AbortPromote(t)) && Next(w, AbortPromote(t)) == w.(promotions := Next(w, AbortPromote(t)).promotions)
      && Next(w, AbortPromote(t)).promotions.Keys == w.promotions.Keys - {t}
    ensures t in w.registrations ==>
      && Enabled(w, AbortRegister(t)) && Next(w, AbortRegister(t)) == w.(registrations := Next(w, AbortRegister(t)).registrations)
      && Next(w, AbortRegister(t)).registrations.Keys == w.registrations.Keys - {t}
  {
  }

  // ---- Loading

  /** A load is the cache's `Get` on what `load_artifacts` answers at that moment, and changes nothing else. */
  lemma LoadIsGet(w: World, id: Id, readable: bool)
    requires id in w.models
    ensures Enabled(w, Load(id, readable))
    ensures
      var v := Next(w, Load(id, readable));
      && Gets(w.cache, w.disk, id, ArtifactsAt(w.storage, w.models[id].path, readable), v.cache, v.disk)
      && v == w.(cache := v.cache, disk := v.disk)
  {
    hide ArtifactsAt;
  }

  // ---- A configuration that could not be read

  lemma LoadsFresh(w: World, name: string, version: string, a: Artifacts, id: Id)
    requires '/' !in w.bucket && Holds(w.storage, w.bucket, name, version, a)
    requires id in w.models && w.models[id].path == PathOf(w.bucket, name, version) && id !in w.cache && id !in w.disk
    ensures
      var v := Next(w, Load(id, false));
      id in v.cache && v.cache[id] == Loaded(a.weights, map[])
  {
    hide ArtifactsAt, WeightsKey, ConfigKey, PathOf;
    LoadsAtKeys(w.storage, w.bucket, name, version, false);
  }

  lemma StoredHolds(storage: map<Key, Blob>, bucket: string, name: string, version: string, a: Artifacts)
    ensures Holds(Stored(storage, bucket, name, version, a), bucket, name, version, a)
  {
    hide WeightsKey, ConfigKey;
    KeysShared(bucket, name, version, name, version);
  }

  /**
   From an empty registry: one model is registered undisturbed, and its first load cannot read the configuration.
   The detector is cached without the mapping that was registered.
   */
  lemma FailedReadHappens(bucket: string, name: string, version: string, a: Artifacts)
    requires '/' !in bucket
    ensures Runs(Start(bucket), RegisterSteps(0, name, version, a, 0))
    ensures
      var w := After(Start(bucket), RegisterSteps(0, name, version, a, 0));
      && 0 in w.models && 0 in w.given && w.given[0] == a
      && Enabled(w, Load(0, false))
      && var v := Next(w, Load(0, false));
         && 0 in v.cache && v.cache[0] == Loaded(a.weights, map[])
         && (CachedAsGiven(v, 0) <==> a.mapping == map[])
  {
    hide Runs, After, Stored, PathOf, ArtifactsAt, Holds, RegisterSteps, Loading;
    RegisterAlone(Start(bucket), 0, name, version, a, 0);
    StoredHolds(map[], bucket, name, version, a);
    var w := After(Start(bucket), RegisterSteps(0, name, version, a, 0));
    LoadsFresh(w, name, version, a, 0);
    LoadingGiven(w, 0, false);
  }
}

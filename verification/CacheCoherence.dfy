/**
 What storage and cache are worth along the same steps. In every run a model loads the objects last put under
 its prefix, and a cached detector is the registered one exactly when the first load found the registered weights
 and the filling load the registered mapping. All models stay as registered exactly while every step is harmless;
 slash-free names and registrations of one pair that do not overlap are.
 */
module CacheCoherence {
  import opened Wrappers
  import opened ModelRegistry
  import opened RegistryProtocol

  // ---- What each kind of step leaves alone

  lemma PromotionFrame(w: World, s: Step)
    requires Enabled(w, s) && (s.BeginPromote? || s.TakeSnapshot? || s.Retire? || s.Crown? || s.AbortPromote?)
    ensures Next(w, s) == w.(promotions := Next(w, s).promotions)
  {
    hide Registered, ActiveIds, LockedByOther, MayCrown, Retiring, Crowning;
    if s.Crown? { CrowningShape(w, s.t); }
  }

  lemma CommitFrame(w: World, s: Step)
    requires Enabled(w, s) && s.Commit?
    ensures Next(w, s) == w.(models := Next(w, s).models, promotions := Next(w, s).promotions)
  {
    hide LockedByOther, MayCrown, Promoted;
  }

  lemma LoadFrame(w: World, s: Step)
    requires Enabled(w, s) && (s.Load? || s.Restart?)
    ensures Next(w, s) == w.(cache := Next(w, s).cache, disk := Next(w, s).disk)
  {
    hide Loading;
    if s.Load? { LoadingShape(w, s.id, s.configReadable); }
  }

  lemma RegisterFrame(w: World, s: Step)
    requires Enabled(w, s) && (s.BeginRegister? || s.AbortRegister?)
    ensures Next(w, s) == w.(registrations := Next(w, s).registrations)
  {
    hide Registered;
  }

  lemma PutFrame(w: World, s: Step)
    requires Enabled(w, s) && (s.PutWeights? || s.PutConfig?)
    ensures Next(w, s) == w.(storage := Next(w, s).storage, registrations := Next(w, s).registrations)
  {
    hide WeightsKey, ConfigKey;
  }

  lemma InsertFrame(w: World, s: Step)
    requires Enabled(w, s) && s.Insert?
    ensures Next(w, s) ==
      w.(models := Next(w, s).models, given := Next(w, s).given, registrations := Next(w, s).registrations)
  {
    hide Registered, NewModel;
  }

  /** Which tables a step may change. */
  lemma Frame(w: World, s: Step)
    requires Enabled(w, s)
    ensures Next(w, s).bucket == w.bucket
    ensures !s.PutWeights? && !s.PutConfig? ==> Next(w, s).storage == w.storage
    ensures !s.Insert? ==> Next(w, s).given == w.given
    ensures !s.Insert? && !s.Commit? ==> Next(w, s).models == w.models
    ensures !s.Load? && !s.Restart? ==> Next(w, s).cache == w.cache && Next(w, s).disk == w.disk
    ensures !s.BeginRegister? && !s.AbortRegister? && !s.PutWeights? && !s.PutConfig? && !s.Insert? ==>
      Next(w, s).registrations == w.registrations
  {
    hide Next, Enabled;
    match s {
      case BeginPromote(_, _) => PromotionFrame(w, s);
      case TakeSnapshot(_) => PromotionFrame(w, s);
      case Retire(_) => PromotionFrame(w, s);
      case Crown(_) => PromotionFrame(w, s);
      case Commit(_) => CommitFrame(w, s);
      case AbortPromote(_) => PromotionFrame(w, s);
      case BeginRegister(_, _, _, _) => RegisterFrame(w, s);
      case PutWeights(_) => PutFrame(w, s);
      case PutConfig(_) => PutFrame(w, s);
      case Insert(_, _) => InsertFrame(w, s);
      case AbortRegister(_) => RegisterFrame(w, s);
      case Load(_, _) => LoadFrame(w, s);
      case Restart => LoadFrame(w, s);
    }
  }

  // ---- Every run: the last objects put under a prefix

  ghost predicate WeightsAt(w: World, name: string, version: string) {
    var k := WeightsKey(w.bucket, name, version);
    k in w.storage && w.storage[k].Weights?
  }

  ghost predicate ConfigAt(w: World, name: string, version: string) {
    var k := ConfigKey(w.bucket, name, version);
    k in w.storage && w.storage[k].Config?
  }

  ghost function StoredWeights(w: World, name: string, version: string): Option<Bytes> {
    if WeightsAt(w, name, version) then Some(w.storage[WeightsKey(w.bucket, name, version)].bytes) else None
  }

  ghost function StoredMapping(w: World, name: string, version: string): Option<Mapping> {
    if ConfigAt(w, name, version) then Some(w.storage[ConfigKey(w.bucket, name, version)].mapping) else None
  }

  predicate SamePrefix(r: Registration, name: string, version: string) {
    Prefix(r.name, r.version) == Prefix(name, version)
  }

  /** The weights a step puts under a prefix, if it does. */
  ghost function WeightsPutBy(w: World, s: Step, name: string, version: string): Option<Bytes>
    requires Enabled(w, s)
  {
    if s.PutWeights? && SamePrefix(w.registrations[s.t], name, version)
    then Some(w.registrations[s.t].artifacts.weights) else None
  }

  ghost function MappingPutBy(w: World, s: Step, name: string, version: string): Option<Mapping>
    requires Enabled(w, s)
  {
    if s.PutConfig? && SamePrefix(w.registrations[s.t], name, version)
    then Some(w.registrations[s.t].artifacts.mapping) else None
  }

  function Latest<T>(put: Option<T>, before: Option<T>): Option<T> {
    if put.Some? then put else before
  }

  lemma PutChanges(w: World, s: Step, name: string, version: string)
    requires Enabled(w, s) && (s.PutWeights? || s.PutConfig?)
    ensures StoredWeights(Next(w, s), name, version) == Latest(WeightsPutBy(w, s, name, version), StoredWeights(w, name, version))
    ensures StoredMapping(Next(w, s), name, version) == Latest(MappingPutBy(w, s, name, version), StoredMapping(w, name, version))
  {
    hide WeightsKey, ConfigKey, Prefix;
    var r := w.registrations[s.t];
    KeysShared(w.bucket, r.name, r.version, name, version);
    KeysShared(w.bucket, name, version, r.name, r.version);
  }

  /** A step changes what is stored under a prefix only by putting there. */
  lemma StepPuts(w: World, s: Step, name: string, version: string)
    requires Enabled(w, s)
    ensures StoredWeights(Next(w, s), name, version) == Latest(WeightsPutBy(w, s, name, version), StoredWeights(w, name, version))
    ensures StoredMapping(Next(w, s), name, version) == Latest(MappingPutBy(w, s, name, version), StoredMapping(w, name, version))
  {
    hide Next, Enabled, WeightsKey, ConfigKey;
    if s.PutWeights? || s.PutConfig? { PutChanges(w, s, name, version); } else { Frame(w, s); }
  }

  /** The weights last put under a prefix along a run. */
  ghost function LastWeights(w: World, steps: seq<Step>, name: string, version: string, before: Option<Bytes>): Option<Bytes>
    requires Runs(w, steps)
    decreases |steps|
  {
    if steps == [] then before
    else LastWeights(Next(w, steps[0]), steps[1..], name, version, Latest(WeightsPutBy(w, steps[0], name, version), before))
  }

  ghost function LastMapping(w: World, steps: seq<Step>, name: string, version: string, before: Option<Mapping>): Option<Mapping>
    requires Runs(w, steps)
    decreases |steps|
  {
    if steps == [] then before
    else LastMapping(Next(w, steps[0]), steps[1..], name, version, Latest(MappingPutBy(w, steps[0], name, version), before))
  }

  lemma {:induction false} RunPuts(w: World, steps: seq<Step>, name: string, version: string)
    requires Runs(w, steps)
    ensures
      StoredWeights(After(w, steps), name, version) ==
      LastWeights(w, steps, name, version, StoredWeights(w, name, version))
    ensures
      StoredMapping(After(w, steps), name, version) ==
      LastMapping(w, steps, name, version, StoredMapping(w, name, version))
    decreases |steps|
  {
    hide Next, Enabled, StoredWeights, StoredMapping, WeightsPutBy, MappingPutBy;
    if steps != [] {
      StepPuts(w, steps[0], name, version);
      RunPuts(Next(w, steps[0]), steps[1..], name, version);
    }
  }

  // ---- Every run: a model has its two objects

  ghost predicate ModelShape(w: World, m: Model) {
    m.path == PathOf(w.bucket, m.name, m.version) && WeightsAt(w, m.name, m.version) && ConfigAt(w, m.name, m.version)
  }

  ghost predicate RegistrationShape(w: World, r: Registration) {
    && (r.stage != Checked ==> WeightsAt(w, r.name, r.version))
    && (r.stage == ConfigPut ==> ConfigAt(w, r.name, r.version))
  }

  ghost predicate Shape(w: World) {
    && '/' !in w.bucket
    && w.given.Keys == w.models.Keys && w.cache.Keys <= w.disk.Keys <= w.models.Keys
    && (forall id :: id in w.models ==> ModelShape(w, w.models[id]))
    && (forall t :: t in w.registrations ==> RegistrationShape(w, w.registrations[t]))
  }

  /** Objects are replaced, never removed. */
  lemma ObjectsStay(w: World, s: Step, name: string, version: string)
    requires Enabled(w, s)
    ensures WeightsAt(w, name, version) ==> WeightsAt(Next(w, s), name, version)
    ensures ConfigAt(w, name, version) ==> ConfigAt(Next(w, s), name, version)
    ensures Next(w, s).bucket == w.bucket
  {
    hide Next, Enabled, WeightsPutBy, MappingPutBy, WeightsAt, ConfigAt;
    StepPuts(w, s, name, version);
    StoredIs(w, name, version);
    StoredIs(Next(w, s), name, version);
    Frame(w, s);
  }

  lemma StoredIs(w: World, name: string, version: string)
    ensures StoredWeights(w, name, version).Some? <==> WeightsAt(w, name, version)
    ensures StoredMapping(w, name, version).Some? <==> ConfigAt(w, name, version)
  {
    hide WeightsAt, ConfigAt;
  }

  /** What a step does to one model: it comes from an insert, or keeps name, version, path and what was given. */
  ghost predicate ModelFrom(w: World, s: Step, id: Id)
    requires Enabled(w, s)
  {
    var v := Next(w, s);
    id in v.models ==>
      if id in w.models then
        && SamePair(v.models[id], w.models[id]) && v.models[id].path == w.models[id].path
        && (id in w.given ==> id in v.given && v.given[id] == w.given[id])
      else
        && s.Insert? && s.id == id && !Registered(w.models, w.registrations[s.t].name, w.registrations[s.t].version)
        && v.models[id] == NewModel(w.bucket, w.registrations[s.t].name, w.registrations[s.t].version)
        && id in v.given && v.given[id] == w.registrations[s.t].artifacts
  }

  predicate SamePair(m: Model, n: Model) {
    m.name == n.name && m.version == n.version
  }

  lemma PromotedPairs(models: map<Id, Model>, retired: set<Id>, id: Id)
    requires id in models
    ensures Promoted(models, retired, id).Keys == models.Keys
    ensures forall m :: m in models ==>
      SamePair(Promoted(models, retired, id)[m], models[m]) && Promoted(models, retired, id)[m].path == models[m].path
  {
  }

  lemma CommittedModels(w: World, s: Step)
    requires Enabled(w, s) && s.Commit?
    ensures Next(w, s).models.Keys == w.models.Keys
    ensures forall id :: id in w.models ==>
      SamePair(Next(w, s).models[id], w.models[id]) && Next(w, s).models[id].path == w.models[id].path
  {
    hide LockedByOther, MayCrown, Promoted, SamePair;
    var p := w.promotions[s.t];
    forall id | id in w.models ensures SamePair(w.models[id], w.models[id]) { SelfPair(w.models[id]); }
    if p.id in w.models { PromotedPairs(w.models, p.retired, p.id); }
  }

  lemma SelfPair(m: Model)
    ensures SamePair(m, m)
  {
  }

  lemma InsertedModels(w: World, s: Step)
    requires Enabled(w, s) && s.Insert?
    ensures
      var r, v := w.registrations[s.t], Next(w, s);
      if Registered(w.models, r.name, r.version) then v.models == w.models && v.given == w.given
      else v.models == w.models[s.id := NewModel(w.bucket, r.name, r.version)] && v.given == w.given[s.id := r.artifacts]
    ensures s.id !in w.models
    ensures Next(w, s).registrations == w.registrations - {s.t}
  {
    hide Registered, NewModel;
  }

  lemma ModelStep(w: World, s: Step, id: Id)
    requires Enabled(w, s)
    ensures ModelFrom(w, s, id)
    ensures id in w.models ==> id in Next(w, s).models
  {
    hide Next, Enabled, Registered, NewModel;
    Frame(w, s);
    if s.Commit? { CommittedModels(w, s); }
    if s.Insert? { InsertedModels(w, s); }
  }

  /** What a step does to the registrations: a begin adds one, a put advances one. */
  ghost predicate RegistrationFrom(w: World, s: Step, u: TxId)
    requires Enabled(w, s)
  {
    var v := Next(w, s);
    u in v.registrations ==>
      || (u in w.registrations && v.registrations[u] == w.registrations[u])
      || (s.BeginRegister? && v.registrations[u] == Registration(s.name, s.version, s.artifacts, Checked)
          && s.t == u && !Registered(w.models, s.name, s.version) && v.models == w.models)
      || (s.PutWeights? && s.t == u && u in w.registrations && v.registrations[u] == w.registrations[u].(stage := WeightsPut))
      || (s.PutConfig? && s.t == u && u in w.registrations && w.registrations[u].stage == WeightsPut
          && v.registrations[u] == w.registrations[u].(stage := ConfigPut))
  }

  lemma RegistrationStep(w: World, s: Step, u: TxId)
    requires Enabled(w, s)
    ensures RegistrationFrom(w, s, u)
  {
    hide Registered, NewModel, WeightsKey, ConfigKey, LockedByOther, MayCrown, Retiring, Crowning, Loading, Promoted, ActiveIds;
    Frame(w, s);
  }

  lemma OwnPut(w: World, s: Step)
    requires Enabled(w, s)
    ensures s.PutWeights? ==> WeightsAt(Next(w, s), w.registrations[s.t].name, w.registrations[s.t].version)
    ensures s.PutConfig? ==> ConfigAt(Next(w, s), w.registrations[s.t].name, w.registrations[s.t].version)
  {
    hide WeightsKey, ConfigKey;
  }

  lemma LoadKeys(w: World, s: Step)
    requires Enabled(w, s) && (s.Load? || s.Restart?) && w.cache.Keys <= w.disk.Keys <= w.models.Keys
    ensures Next(w, s).cache.Keys <= Next(w, s).disk.Keys <= w.models.Keys
  {
    hide ArtifactsAt;
  }

  lemma TableKeys(w: World, s: Step)
    requires Enabled(w, s)
    requires w.given.Keys == w.models.Keys && w.cache.Keys <= w.disk.Keys <= w.models.Keys
    ensures
      var v := Next(w, s);
      v.given.Keys == v.models.Keys && v.cache.Keys <= v.disk.Keys <= v.models.Keys
  {
    hide Next, Enabled, Registered, NewModel;
    Frame(w, s);
    if s.Commit? { CommittedModels(w, s); }
    if s.Insert? { InsertedModels(w, s); }
    if s.Load? || s.Restart? { LoadKeys(w, s); }
  }

  lemma ShapeStep(w: World, s: Step)
    requires Shape(w) && Enabled(w, s)
    ensures Shape(Next(w, s))
  {
    hide Next, Enabled, PathOf, WeightsAt, ConfigAt, Registered;
    var v := Next(w, s);
    TableKeys(w, s);
    Frame(w, s);
    forall id | id in v.models ensures ModelShape(v, v.models[id]) {
      ModelStep(w, s, id);
      ObjectsStay(w, s, v.models[id].name, v.models[id].version);
      if id !in w.models { Inserting(w, s); }
    }
    forall u | u in v.registrations ensures RegistrationShape(v, v.registrations[u]) {
      RegistrationStep(w, s, u);
      ObjectsStay(w, s, v.registrations[u].name, v.registrations[u].version);
      OwnPut(w, s);
    }
  }

  lemma Inserting(w: World, s: Step)
    requires Enabled(w, s) && s.Insert?
    ensures s.t in w.registrations && w.registrations[s.t].stage == ConfigPut && s.id !in w.models
  {
  }

  lemma {:induction false} ShapeSteps(w: World, steps: seq<Step>)
    requires Shape(w) && Runs(w, steps)
    ensures Shape(After(w, steps))
    decreases |steps|
  {
    hide Shape, Next, Enabled;
    if steps != [] {
      ShapeStep(w, steps[0]);
      ShapeSteps(Next(w, steps[0]), steps[1..]);
    }
  }

  lemma StartShape(bucket: string)
    requires '/' !in bucket
    ensures Shape(Start(bucket))
  {
  }

  /** The objects a model has now. */
  ghost function Objects(w: World, name: string, version: string): Artifacts
    requires WeightsAt(w, name, version) && ConfigAt(w, name, version)
  {
    Artifacts(StoredWeights(w, name, version).value, StoredMapping(w, name, version).value)
  }

  lemma LoadsObjects(w: World, id: Id, readable: bool)
    requires Shape(w) && id in w.models
    ensures ModelShape(w, w.models[id])
    ensures
      var a := Objects(w, w.models[id].name, w.models[id].version);
      ArtifactsAt(w.storage, w.models[id].path, readable) == Ok(Artifacts(a.weights, if readable then a.mapping else map[]))
  {
    hide PathOf, WeightsKey, ConfigKey, ArtifactsAt, RegistrationShape;
    LoadsAtKeys(w.storage, w.bucket, w.models[id].name, w.models[id].version, readable);
  }

  /** `load_artifacts` returns what was handed over when the model was registered. */
  ghost predicate Intact(w: World, id: Id)
    requires id in w.models && id in w.given
  {
    ArtifactsAt(w.storage, w.models[id].path, true) == Ok(w.given[id])
  }

  lemma IntactIs(w: World, id: Id)
    requires Shape(w) && id in w.models
    ensures id in w.given && ModelShape(w, w.models[id])
    ensures Intact(w, id) <==> Objects(w, w.models[id].name, w.models[id].version) == w.given[id]
  {
    hide ArtifactsAt, PathOf, WeightsAt, ConfigAt, ModelShape, RegistrationShape, Objects;
    LoadsObjects(w, id, true);
  }

  /**
   Over every run whatsoever, a model loads the weights and the mapping last put under its prefix, so it is
   intact exactly when those equal what its own registration handed over.
   */
  lemma LoadsLastPuts(bucket: string, steps: seq<Step>, id: Id)
    requires '/' !in bucket && Runs(Start(bucket), steps) && id in After(Start(bucket), steps).models
    ensures
      var w := After(Start(bucket), steps);
      var m := w.models[id];
      var weights, mapping :=
        LastWeights(Start(bucket), steps, m.name, m.version, None), LastMapping(Start(bucket), steps, m.name, m.version, None);
      && id in w.given && weights.Some? && mapping.Some?
      && ArtifactsAt(w.storage, m.path, true) == Ok(Artifacts(weights.value, mapping.value))
      && (Intact(w, id) <==> weights.value == w.given[id].weights && mapping.value == w.given[id].mapping)
  {
    hide ArtifactsAt, PathOf, WeightsAt, ConfigAt, ModelShape, RegistrationShape, LastWeights, LastMapping, Runs, After,
         StoredWeights, StoredMapping;
    StartShape(bucket);
    ShapeSteps(Start(bucket), steps);
    var w := After(Start(bucket), steps);
    var m := w.models[id];
    RunPuts(Start(bucket), steps, m.name, m.version);
    NothingStored(bucket, m.name, m.version);
    LoadsObjects(w, id, true);
    StoredIs(w, m.name, m.version);
    ModelObjects(w, m);
    IntactIs(w, id);
  }

  lemma NothingStored(bucket: string, name: string, version: string)
    ensures StoredWeights(Start(bucket), name, version) == None && StoredMapping(Start(bucket), name, version) == None
  {
  }

  lemma ModelObjects(w: World, m: Model)
    requires ModelShape(w, m)
    ensures WeightsAt(w, m.name, m.version) && ConfigAt(w, m.name, m.version)
  {
    hide WeightsAt, ConfigAt, PathOf;
  }

  // ---- Harmless steps, exactly

  ghost predicate AllIntact(w: World)
    requires w.given.Keys == w.models.Keys
  {
    forall id :: id in w.models ==> Intact(w, id)
  }

  /**
   A put under the prefix of a registered model puts the bytes that model was given; an insert finds under its
   prefix the objects of its own registration.
   */
  ghost predicate Harmless(w: World, s: Step)
    requires Enabled(w, s) && w.given.Keys == w.models.Keys
  {
    && (s.PutWeights? ==>
          forall id :: id in w.models && SamePrefix(w.registrations[s.t], w.models[id].name, w.models[id].version) ==>
            w.registrations[s.t].artifacts.weights == w.given[id].weights)
    && (s.PutConfig? ==>
          forall id :: id in w.models && SamePrefix(w.registrations[s.t], w.models[id].name, w.models[id].version) ==>
            w.registrations[s.t].artifacts.mapping == w.given[id].mapping)
    && (s.Insert? && !Registered(w.models, w.registrations[s.t].name, w.registrations[s.t].version) ==>
          var r := w.registrations[s.t];
          StoredWeights(w, r.name, r.version) == Some(r.artifacts.weights)
          && StoredMapping(w, r.name, r.version) == Some(r.artifacts.mapping))
  }

  /** An intact model stays intact through a step exactly when the step puts nothing else under its prefix. */
  lemma IntactAfter(w: World, s: Step, id: Id)
    requires Shape(w) && Enabled(w, s) && id in w.models && id in w.given && Intact(w, id)
    ensures
      var v := Next(w, s);
      var m := w.models[id];
      var weights, mapping := WeightsPutBy(w, s, m.name, m.version), MappingPutBy(w, s, m.name, m.version);
      && id in v.models && id in v.given
      && (Intact(v, id) <==>
            (weights.Some? ==> weights.value == w.given[id].weights) && (mapping.Some? ==> mapping.value == w.given[id].mapping))
  {
    hide Next, Enabled, Shape, Intact, PathOf, WeightsPutBy, MappingPutBy, WeightsAt, ConfigAt, StoredWeights, StoredMapping;
    var v := Next(w, s);
    ShapeStep(w, s);
    ModelStep(w, s, id);
    IntactIs(w, id);
    IntactIs(v, id);
    StepPuts(w, s, w.models[id].name, w.models[id].version);
    StoredIs(w, w.models[id].name, w.models[id].version);
  }

  /** With slash-free names: a put spoils an intact model exactly when it is for the same pair and brings something else. */
  lemma PutSpoilsExactly(w: World, t: TxId, id: Id)
    requires Shape(w) && id in w.models && id in w.given && Intact(w, id) && t in w.registrations
    requires '/' !in w.models[id].name && '/' !in w.registrations[t].name
    ensures
      var r, m := w.registrations[t], w.models[id];
      var same := r.name == m.name && r.version == m.version;
      && (Enabled(w, PutWeights(t)) ==>
            var v := Next(w, PutWeights(t));
            id in v.models && id in v.given && (!Intact(v, id) <==> same && r.artifacts.weights != w.given[id].weights))
      && (Enabled(w, PutConfig(t)) ==>
            var v := Next(w, PutConfig(t));
            id in v.models && id in v.given && (!Intact(v, id) <==> same && r.artifacts.mapping != w.given[id].mapping))
  {
    hide Next, Enabled, Shape, Intact, SamePrefix;
    var r, m := w.registrations[t], w.models[id];
    if SamePrefix(r, m.name, m.version) { PrefixMeansPair(r, m.name, m.version); }
    PairMeansPrefix(r, m.name, m.version);
    if Enabled(w, PutWeights(t)) { IntactAfter(w, PutWeights(t), id); }
    if Enabled(w, PutConfig(t)) { IntactAfter(w, PutConfig(t), id); }
  }

  lemma PrefixMeansPair(r: Registration, name: string, version: string)
    requires '/' !in r.name && '/' !in name && SamePrefix(r, name, version)
    ensures r.name == name && r.version == version
  {
    PrefixInjective(r.name, r.version, name, version);
  }

  lemma PairMeansPrefix(r: Registration, name: string, version: string)
    ensures r.name == name && r.version == version ==> SamePrefix(r, name, version)
  {
  }

  lemma InsertedIntact(w: World, s: Step)
    requires Shape(w) && Enabled(w, s) && s.Insert? && !Registered(w.models, w.registrations[s.t].name, w.registrations[s.t].version)
    ensures
      var v, r := Next(w, s), w.registrations[s.t];
      && s.id in v.models && s.id in v.given
      && (Intact(v, s.id) <==>
            StoredWeights(w, r.name, r.version) == Some(r.artifacts.weights)
            && StoredMapping(w, r.name, r.version) == Some(r.artifacts.mapping))
  {
    hide Shape, Intact, PathOf, WeightsAt, ConfigAt, StoredWeights, StoredMapping, Registered;
    var v, r := Next(w, s), w.registrations[s.t];
    ShapeStep(w, s);
    IntactIs(v, s.id);
    StepPuts(w, s, r.name, r.version);
    StoredIs(v, r.name, r.version);
  }

  lemma GivenKeys(w: World)
    requires Shape(w)
    ensures w.given.Keys == w.models.Keys
  {
    hide ModelShape, RegistrationShape;
  }

  /** What one step must do so that one model is intact after it. */
  ghost predicate KeptBy(w: World, s: Step, id: Id)
    requires Enabled(w, s)
  {
    if id in w.models then
      var weights := WeightsPutBy(w, s, w.models[id].name, w.models[id].version);
      var mapping := MappingPutBy(w, s, w.models[id].name, w.models[id].version);
      id in w.given && (weights.Some? ==> weights.value == w.given[id].weights)
      && (mapping.Some? ==> mapping.value == w.given[id].mapping)
    else if s.Insert? then
      var r := w.registrations[s.t];
      StoredWeights(w, r.name, r.version) == Some(r.artifacts.weights)
      && StoredMapping(w, r.name, r.version) == Some(r.artifacts.mapping)
    else true
  }

  /** The model a step inserts, and the ones there were. */
  ghost predicate Concerns(w: World, s: Step, id: Id)
    requires Enabled(w, s)
  {
    || id in w.models
    || (s.Insert? && s.id == id && !Registered(w.models, w.registrations[s.t].name, w.registrations[s.t].version))
  }

  lemma HarmlessIsKept(w: World, s: Step)
    requires Enabled(w, s) && w.given.Keys == w.models.Keys
    ensures Harmless(w, s) <==> forall id :: Concerns(w, s, id) ==> KeptBy(w, s, id)
  {
    hide Registered, StoredWeights, StoredMapping, LockedByOther, MayCrown, SamePrefix;
    if (forall id :: Concerns(w, s, id) ==> KeptBy(w, s, id)) && (s.PutWeights? || s.PutConfig?) {
      forall id | id in w.models ensures KeptBy(w, s, id) { assert Concerns(w, s, id); }
    }
    if (forall id :: Concerns(w, s, id) ==> KeptBy(w, s, id)) && s.Insert? {
      assert Concerns(w, s, s.id) ==> KeptBy(w, s, s.id);
    }
  }

  lemma ConcernedIntact(w: World, s: Step, id: Id)
    requires Shape(w) && Enabled(w, s) && w.given.Keys == w.models.Keys && AllIntact(w)
    ensures Concerns(w, s, id) <==> id in Next(w, s).models
    ensures Concerns(w, s, id) ==> id in Next(w, s).given && (Intact(Next(w, s), id) <==> KeptBy(w, s, id))
  {
    hide Next, Enabled, Shape, Intact, Registered, StoredWeights, StoredMapping;
    ModelStep(w, s, id);
    if s.Insert? { InsertedModels(w, s); }
    if id in w.models { IntactAfter(w, s, id); } else if Concerns(w, s, id) { InsertedIntact(w, s); }
  }

  /** A step leaves every model intact exactly when it is harmless. */
  lemma HarmlessExactly(w: World, s: Step)
    requires Shape(w) && Enabled(w, s) && w.given.Keys == w.models.Keys && AllIntact(w)
    ensures Next(w, s).given.Keys == Next(w, s).models.Keys
    ensures AllIntact(Next(w, s)) <==> Harmless(w, s)
  {
    hide Next, Enabled, Shape, Intact, Harmless, Concerns, KeptBy;
    ShapeStep(w, s);
    GivenKeys(Next(w, s));
    HarmlessIsKept(w, s);
    forall id
      ensures Concerns(w, s, id) <==> id in Next(w, s).models
      ensures Concerns(w, s, id) ==> id in Next(w, s).given && (Intact(Next(w, s), id) <==> KeptBy(w, s, id))
    {
      ConcernedIntact(w, s, id);
    }
  }

  ghost predicate HarmlessRuns(w: World, steps: seq<Step>)
    requires w.given.Keys == w.models.Keys
    decreases |steps|
  {
    steps == [] ||
    (Enabled(w, steps[0]) && Harmless(w, steps[0]) && Next(w, steps[0]).given.Keys == Next(w, steps[0]).models.Keys
     && HarmlessRuns(Next(w, steps[0]), steps[1..]))
  }

  /** Every model is intact at every point of a run. */
  ghost predicate AlwaysIntact(w: World, steps: seq<Step>)
    requires Runs(w, steps)
    decreases |steps|
  {
    && w.given.Keys == w.models.Keys && AllIntact(w)
    && (steps != [] ==> AlwaysIntact(Next(w, steps[0]), steps[1..]))
  }

  lemma {:induction false} HarmlessRunsExactly(w: World, steps: seq<Step>)
    requires Shape(w) && Runs(w, steps) && w.given.Keys == w.models.Keys && AllIntact(w)
    ensures AlwaysIntact(w, steps) <==> HarmlessRuns(w, steps)
    decreases |steps|
  {
    hide Shape, AllIntact, Harmless, Next, Enabled;
    if steps != [] {
      ShapeStep(w, steps[0]);
      HarmlessExactly(w, steps[0]);
      if AllIntact(Next(w, steps[0])) {
        HarmlessRunsExactly(Next(w, steps[0]), steps[1..]);
      } else {
        NotIntact(Next(w, steps[0]), steps[1..]);
      }
    }
  }

  lemma NotIntact(w: World, steps: seq<Step>)
    requires Runs(w, steps) && w.given.Keys == w.models.Keys && !AllIntact(w)
    ensures !AlwaysIntact(w, steps)
  {
    hide AllIntact, Next, Enabled;
  }

  /** Over every run from an empty registry: all models are intact all the time exactly when every step is harmless. */
  lemma IntactExactly(bucket: string, steps: seq<Step>)
    requires '/' !in bucket && Runs(Start(bucket), steps)
    ensures AlwaysIntact(Start(bucket), steps) <==> HarmlessRuns(Start(bucket), steps)
  {
    hide Runs, AlwaysIntact, HarmlessRuns;
    StartShape(bucket);
    HarmlessRunsExactly(Start(bucket), steps);
  }

  // ---- The cache

  /** How the file on disk and the cached mapping of a model compare with what its registration handed over. */
  datatype Fill = Fill(file: bool, mapping: bool)

  ghost predicate WeightsAsGiven(w: World, id: Id) {
    && id in w.models && id in w.given
    && StoredWeights(w, w.models[id].name, w.models[id].version) == Some(w.given[id].weights)
  }

  ghost predicate MappingAsGiven(w: World, id: Id) {
    && id in w.models && id in w.given
    && StoredMapping(w, w.models[id].name, w.models[id].version) == Some(w.given[id].mapping)
  }

  ghost predicate NothingToMap(w: World, id: Id) {
    id in w.given && w.given[id].mapping == map[]
  }

  /**
   Only a load that fills an entry matters: it writes the weights file if there is none, and takes the mapping
   that is stored at that moment, or an empty one when it cannot read it.
   */
  ghost function Refilled(w: World, s: Step, id: Id, before: Fill): Fill {
    if s.Load? && s.id == id && id !in w.cache then
      Fill(if id in w.disk then before.file else WeightsAsGiven(w, id),
           if s.configReadable then MappingAsGiven(w, id) else NothingToMap(w, id))
    else before
  }

  ghost function FillAlong(w: World, steps: seq<Step>, id: Id, before: Fill): Fill
    requires Runs(w, steps)
    decreases |steps|
  {
    if steps == [] then before
    else FillAlong(Next(w, steps[0]), steps[1..], id, Refilled(w, steps[0], id, before))
  }

  ghost predicate FillSound(w: World, id: Id, f: Fill) {
    && (id in w.disk ==> id in w.given && (w.disk[id] == w.given[id].weights <==> f.file))
    && (id in w.cache ==> id in w.given && id in w.disk && w.cache[id].weights == w.disk[id]
                          && (w.cache[id].mapping == w.given[id].mapping <==> f.mapping))
  }

  lemma OtherEntry(w: World, s: Step, id: Id)
    requires Enabled(w, s) && !(s.Load? && s.id == id) && !s.Restart?
    ensures
      var v := Next(w, s);
      && (id in v.cache <==> id in w.cache) && (id in w.cache ==> v.cache[id] == w.cache[id])
      && (id in v.disk <==> id in w.disk) && (id in w.disk ==> v.disk[id] == w.disk[id])
  {
    hide Next, Enabled;
    Frame(w, s);
    if s.Load? { OtherLoad(w, s, id); }
  }

  lemma OtherLoad(w: World, s: Step, id: Id)
    requires Enabled(w, s) && s.Load? && s.id != id
    ensures
      var v := Next(w, s);
      && (id in v.cache <==> id in w.cache) && (id in w.cache ==> v.cache[id] == w.cache[id])
      && (id in v.disk <==> id in w.disk) && (id in w.disk ==> v.disk[id] == w.disk[id])
  {
    hide ArtifactsAt;
  }

  lemma ShapeKeys(w: World)
    requires Shape(w)
    ensures w.given.Keys == w.models.Keys && w.cache.Keys <= w.disk.Keys <= w.models.Keys
  {
    hide ModelShape, RegistrationShape;
  }

  lemma GivenStays(w: World, s: Step, id: Id)
    requires Enabled(w, s) && id in w.models && id in w.given
    ensures id in Next(w, s).given && Next(w, s).given[id] == w.given[id]
  {
    hide Next, Enabled, Registered;
    ModelStep(w, s, id);
  }

  lemma LoadingGiven(w: World, id: Id, readable: bool)
    requires id in w.models
    ensures Loading(w, id, readable).given == w.given
  {
    hide ArtifactsAt;
  }

  /** What a load that fills an entry leaves on disk and in the cache. */
  lemma LoadFills(w: World, id: Id, readable: bool, a: Artifacts)
    requires id in w.models && id !in w.cache && ArtifactsAt(w.storage, w.models[id].path, readable) == Ok(a)
    ensures
      var v := Loading(w, id, readable);
      && id in v.disk && v.disk[id] == (if id in w.disk then w.disk[id] else a.weights)
      && id in v.cache && v.cache[id] == Loaded(v.disk[id], a.mapping)
  {
    hide ArtifactsAt;
  }

  lemma ObjectsAsGiven(w: World, id: Id)
    requires Shape(w) && id in w.models
    ensures id in w.given && ModelShape(w, w.models[id])
    ensures
      var a := Objects(w, w.models[id].name, w.models[id].version);
      && (WeightsAsGiven(w, id) <==> a.weights == w.given[id].weights)
      && (MappingAsGiven(w, id) <==> a.mapping == w.given[id].mapping)
  {
    hide PathOf, WeightsAt, ConfigAt, RegistrationShape, StoredWeights, StoredMapping;
    StoredIs(w, w.models[id].name, w.models[id].version);
  }

  lemma LoadFillStep(w: World, id: Id, readable: bool, before: Fill)
    requires Shape(w) && id in w.models && id !in w.cache && FillSound(w, id, before)
    ensures FillSound(Loading(w, id, readable), id, Refilled(w, Load(id, readable), id, before))
  {
    hide Shape, Objects, WeightsAsGiven, MappingAsGiven, ArtifactsAt, Loading, WeightsAt, ConfigAt, PathOf;
    ObjectsAsGiven(w, id);
    LoadsObjects(w, id, readable);
    var a := Objects(w, w.models[id].name, w.models[id].version);
    LoadFills(w, id, readable, Artifacts(a.weights, if readable then a.mapping else map[]));
    LoadingGiven(w, id, readable);
  }

  lemma LoadHit(w: World, id: Id, readable: bool)
    requires id in w.models && id in w.cache
    ensures Loading(w, id, readable) == w
  {
    hide ArtifactsAt;
  }

  lemma RestartFrame(w: World)
    ensures Next(w, Restart) == w.(cache := map[])
  {
  }

  lemma FillStep(w: World, s: Step, id: Id, before: Fill)
    requires Shape(w) && Enabled(w, s) && FillSound(w, id, before)
    ensures FillSound(Next(w, s), id, Refilled(w, s, id, before))
  {
    hide Shape, Next, Enabled, Refilled;
    ShapeKeys(w);
    RefilledCases(w, s, id, before);
    if s.Load? && s.id == id {
      LoadNext(w, s);
      if id in w.cache { LoadHit(w, id, s.configReadable); } else { LoadFillStep(w, id, s.configReadable, before); }
    } else if s.Restart? {
      RestartFrame(w);
    } else {
      OtherEntry(w, s, id);
      if id in w.models { GivenStays(w, s, id); }
    }
  }

  lemma RefilledCases(w: World, s: Step, id: Id, before: Fill)
    ensures !(s.Load? && s.id == id && id !in w.cache) ==> Refilled(w, s, id, before) == before
  {
    hide WeightsAsGiven, MappingAsGiven, NothingToMap;
  }

  lemma LoadNext(w: World, s: Step)
    requires Enabled(w, s) && s.Load?
    ensures s.id in w.models && Next(w, s) == Loading(w, s.id, s.configReadable)
  {
    hide Loading;
  }

  lemma {:induction false} FillsAlong(w: World, steps: seq<Step>, id: Id, before: Fill)
    requires Shape(w) && Runs(w, steps) && FillSound(w, id, before)
    ensures FillSound(After(w, steps), id, FillAlong(w, steps, id, before))
    decreases |steps|
  {
    hide Shape, Next, Enabled, FillSound, Refilled;
    if steps != [] {
      ShapeStep(w, steps[0]);
      FillStep(w, steps[0], id, before);
      FillsAlong(Next(w, steps[0]), steps[1..], id, Refilled(w, steps[0], id, before));
    }
  }

  /** What a load finds at a moment of a run, in terms of the last puts before it. */
  lemma AsGivenByPuts(bucket: string, steps: seq<Step>, id: Id)
    requires Runs(Start(bucket), steps) && id in After(Start(bucket), steps).models && id in After(Start(bucket), steps).given
    ensures
      var w := After(Start(bucket), steps);
      var m := w.models[id];
      && (WeightsAsGiven(w, id) <==>
            LastWeights(Start(bucket), steps, m.name, m.version, None) == Some(w.given[id].weights))
      && (MappingAsGiven(w, id) <==>
            LastMapping(Start(bucket), steps, m.name, m.version, None) == Some(w.given[id].mapping))
  {
    hide Runs, After, LastWeights, LastMapping, StoredWeights, StoredMapping;
    var m := After(Start(bucket), steps).models[id];
    RunPuts(Start(bucket), steps, m.name, m.version);
    NothingStored(bucket, m.name, m.version);
  }

  // ---- The cache while the objects are intact

  /** The load that fills the entry of a model since the last restart: could it read the configuration? */
  ghost function FilledReadably(w: World, steps: seq<Step>, id: Id, before: bool): bool
    requires Runs(w, steps)
    decreases |steps|
  {
    if steps == [] then before
    else FilledReadably(Next(w, steps[0]), steps[1..], id, Filling(w, steps[0], id, before))
  }

  function Filling(w: World, s: Step, id: Id, before: bool): bool {
    if s.Load? && s.id == id && id !in w.cache then s.configReadable else before
  }

  /** The file is the registered one, and the mapping too if it could be read or there was none. */
  ghost predicate FillReads(w: World, id: Id, f: Fill, readable: bool) {
    && (id in w.disk ==> f.file)
    && (id in w.cache ==> id in w.disk && (f.mapping <==> readable || NothingToMap(w, id)))
  }

  lemma IntactAsGiven(w: World, id: Id)
    requires Shape(w) && id in w.models && id in w.given && Intact(w, id)
    ensures WeightsAsGiven(w, id) && MappingAsGiven(w, id)
  {
    hide Shape, Intact, ModelShape, Objects, WeightsAsGiven, MappingAsGiven;
    IntactIs(w, id);
    ObjectsAsGiven(w, id);
  }

  lemma FillReadsStep(w: World, s: Step, id: Id, f: Fill, readable: bool)
    requires Shape(w) && Enabled(w, s) && w.given.Keys == w.models.Keys && AllIntact(w) && FillReads(w, id, f, readable)
    ensures FillReads(Next(w, s), id, Refilled(w, s, id, f), Filling(w, s, id, readable))
  {
    hide Shape, Next, Enabled, Intact, WeightsAsGiven, MappingAsGiven, Objects, ArtifactsAt, Loading, WeightsAt, ConfigAt, PathOf;
    ShapeKeys(w);
    if s.Load? && s.id == id {
      LoadNext(w, s);
      if id in w.cache {
        LoadHit(w, id, s.configReadable);
      } else {
        IntactAsGiven(w, id);
        LoadsObjects(w, id, s.configReadable);
        var a := Objects(w, w.models[id].name, w.models[id].version);
        LoadFills(w, id, s.configReadable, Artifacts(a.weights, if s.configReadable then a.mapping else map[]));
        LoadingGiven(w, id, s.configReadable);
      }
    } else if s.Restart? {
      RestartFrame(w);
    } else {
      OtherEntry(w, s, id);
      if id in w.models { GivenStays(w, s, id); }
    }
  }

  lemma {:induction false} FillReadsAlong(w: World, steps: seq<Step>, id: Id, f: Fill, readable: bool)
    requires Shape(w) && w.given.Keys == w.models.Keys && AllIntact(w) && FillReads(w, id, f, readable)
    requires HarmlessRuns(w, steps)
    ensures Runs(w, steps)
    ensures FillReads(After(w, steps), id, FillAlong(w, steps, id, f), FilledReadably(w, steps, id, readable))
    decreases |steps|
  {
    hide Shape, AllIntact, Next, Enabled, Harmless, FillReads, Filling, Refilled;
    if steps != [] {
      ShapeStep(w, steps[0]);
      HarmlessExactly(w, steps[0]);
      FillReadsStep(w, steps[0], id, f, readable);
      FillReadsAlong(Next(w, steps[0]), steps[1..], id, Refilled(w, steps[0], id, f), Filling(w, steps[0], id, readable));
    }
  }

  const UNFILLED := Fill(true, true)

  /** The cached detector is the one freshly built from what the registration of its model handed over. */
  ghost predicate CachedAsGiven(w: World, id: Id) {
    id in w.cache && id in w.given && w.cache[id] == Loaded(w.given[id].weights, w.given[id].mapping)
  }

  /**
   Over every run whatsoever, a cached detector is the one built from its model's registration exactly when the
   first load of the model found the registered weights stored, and the load that filled the entry read the
   registered mapping, or could read none and there was none. While every step is harmless this comes down to:
   the configuration could be read, or the mapping was empty.
   */
  lemma CacheExactly(bucket: string, steps: seq<Step>, id: Id)
    requires '/' !in bucket && Runs(Start(bucket), steps) && id in After(Start(bucket), steps).cache
    ensures
      var w := After(Start(bucket), steps);
      var f := FillAlong(Start(bucket), steps, id, UNFILLED);
      && id in w.given && id in w.disk
      && (w.disk[id] == w.given[id].weights <==> f.file)
      && (w.cache[id].mapping == w.given[id].mapping <==> f.mapping)
      && (CachedAsGiven(w, id) <==> f.file && f.mapping)
    ensures HarmlessRuns(Start(bucket), steps) ==>
      var w := After(Start(bucket), steps);
      CachedAsGiven(w, id) <==> FilledReadably(Start(bucket), steps, id, true) || NothingToMap(w, id)
  {
    hide Runs, After, HarmlessRuns, FilledReadably, FillAlong, Shape;
    StartShape(bucket);
    FillsAlong(Start(bucket), steps, id, UNFILLED);
    if HarmlessRuns(Start(bucket), steps) { FillReadsAlong(Start(bucket), steps, id, UNFILLED, true); }
  }

  // ---- Slash-free names and registrations that do not overlap are harmless

  ghost predicate Orderly(w: World, s: Step) {
    s.BeginRegister? ==>
      && '/' !in s.name
      && forall u :: u in w.registrations ==> w.registrations[u].name != s.name || w.registrations[u].version != s.version
  }

  ghost predicate OrderlyRuns(w: World, steps: seq<Step>)
    decreases |steps|
  {
    steps == [] || (Enabled(w, steps[0]) && Orderly(w, steps[0]) && OrderlyRuns(Next(w, steps[0]), steps[1..]))
  }

  /** A registration under way is alone with its pair, and has stored what it was given. */
  ghost predicate AloneSoFar(w: World, r: Registration) {
    && '/' !in r.name && !Registered(w.models, r.name, r.version)
    && (r.stage != Checked ==> StoredWeights(w, r.name, r.version) == Some(r.artifacts.weights))
    && (r.stage == ConfigPut ==> StoredMapping(w, r.name, r.version) == Some(r.artifacts.mapping))
  }

  ghost predicate OtherPair(r: Registration, q: Registration) {
    r.name != q.name || r.version != q.version
  }

  ghost predicate OrderInv(w: World) {
    && (forall id :: id in w.models ==> '/' !in w.models[id].name)
    && (forall t :: t in w.registrations ==> AloneSoFar(w, w.registrations[t]))
    && (forall t, u :: t in w.registrations && u in w.registrations && t != u ==> OtherPair(w.registrations[t], w.registrations[u]))
  }

  lemma OrderlyHarmless(w: World, s: Step)
    requires OrderInv(w) && Enabled(w, s) && w.given.Keys == w.models.Keys
    ensures Harmless(w, s)
  {
    hide StoredWeights, StoredMapping, LockedByOther, MayCrown, Prefix;
    if s.PutWeights? || s.PutConfig? {
      var r := w.registrations[s.t];
      assert AloneSoFar(w, r);
      forall id | id in w.models ensures !SamePrefix(r, w.models[id].name, w.models[id].version) {
        if SamePrefix(r, w.models[id].name, w.models[id].version) {
          PrefixMeansPair(r, w.models[id].name, w.models[id].version);
          assert false;
        }
      }
    } else if s.Insert? {
      assert AloneSoFar(w, w.registrations[s.t]);
    }
  }

  lemma StillUnregistered(w: World, s: Step, name: string, version: string)
    requires Enabled(w, s) && !Registered(w.models, name, version)
    requires s.Insert? ==> w.registrations[s.t].name != name || w.registrations[s.t].version != version
    ensures !Registered(Next(w, s).models, name, version)
  {
    hide Next, Enabled, PathOf;
    var v := Next(w, s);
    forall id | id in v.models ensures v.models[id].name != name || v.models[id].version != version {
      ModelStep(w, s, id);
    }
  }

  /** The stage of another registration, and what it has stored, survive a step. */
  lemma OtherAlone(w: World, s: Step, q: Registration)
    requires Enabled(w, s) && AloneSoFar(w, q)
    requires s.PutWeights? || s.PutConfig? || s.Insert? ==>
      s.t in w.registrations && '/' !in w.registrations[s.t].name && OtherPair(w.registrations[s.t], q)
    ensures AloneSoFar(Next(w, s), q)
  {
    hide Next, Enabled, Registered, StoredWeights, StoredMapping, Prefix;
    StillUnregistered(w, s, q.name, q.version);
    StepPuts(w, s, q.name, q.version);
    if (s.PutWeights? || s.PutConfig?) && SamePrefix(w.registrations[s.t], q.name, q.version) {
      PrefixMeansPair(w.registrations[s.t], q.name, q.version);
    }
  }

  lemma OwnAlone(w: World, s: Step)
    requires Enabled(w, s) && (s.PutWeights? || s.PutConfig?) && AloneSoFar(w, w.registrations[s.t])
    ensures s.t in Next(w, s).registrations && AloneSoFar(Next(w, s), Next(w, s).registrations[s.t])
  {
    hide Registered, StoredWeights, StoredMapping, Prefix, WeightsKey, ConfigKey;
    var r := w.registrations[s.t];
    StepPuts(w, s, r.name, r.version);
    StillUnregistered(w, s, r.name, r.version);
  }

  lemma NewAlone(w: World, s: Step)
    requires Enabled(w, s) && s.BeginRegister? && '/' !in s.name && !Registered(w.models, s.name, s.version)
    ensures AloneSoFar(Next(w, s), Registration(s.name, s.version, s.artifacts, Checked))
  {
    hide Registered, StoredWeights, StoredMapping;
  }

  /** Where a registration comes from in an orderly step, and that an acting one has another pair. */
  lemma Elsewhere(w: World, s: Step, u: TxId)
    requires OrderInv(w) && Enabled(w, s) && u in Next(w, s).registrations
    requires !(s.BeginRegister? && s.t == u) && !((s.PutWeights? || s.PutConfig?) && s.t == u)
    ensures u in w.registrations && Next(w, s).registrations[u] == w.registrations[u]
    ensures s.PutWeights? || s.PutConfig? || s.Insert? ==>
      s.t in w.registrations && '/' !in w.registrations[s.t].name && OtherPair(w.registrations[s.t], w.registrations[u])
  {
    hide Next, Enabled, AloneSoFar, OtherPair;
    RegistrationStep(w, s, u);
    if s.Insert? { InsertedModels(w, s); }
    if s.PutWeights? || s.PutConfig? || s.Insert? {
      PutKnown(w, s);
      SlashFree(w, w.registrations[s.t]);
    }
  }

  lemma SlashFree(w: World, r: Registration)
    requires AloneSoFar(w, r)
    ensures '/' !in r.name
  {
    hide Registered, StoredWeights, StoredMapping;
  }

  lemma BeginsAlone(w: World, s: Step)
    requires Enabled(w, s) && s.BeginRegister? && s.t in Next(w, s).registrations
    ensures Next(w, s).registrations[s.t] == Registration(s.name, s.version, s.artifacts, Checked)
    ensures !Registered(w.models, s.name, s.version)
  {
    hide Registered;
  }

  lemma OrderedAfter(w: World, s: Step, u: TxId)
    requires OrderInv(w) && Enabled(w, s) && Orderly(w, s) && u in Next(w, s).registrations
    ensures AloneSoFar(Next(w, s), Next(w, s).registrations[u])
  {
    hide Next, AloneSoFar, Enabled;
    if (s.PutWeights? || s.PutConfig?) && s.t == u {
      PutKnown(w, s);
      OwnAlone(w, s);
    } else if s.BeginRegister? && s.t == u {
      BeginsAlone(w, s);
      NewAlone(w, s);
    } else {
      Elsewhere(w, s, u);
      OtherAlone(w, s, w.registrations[u]);
    }
  }

  lemma PutKnown(w: World, s: Step)
    requires OrderInv(w) && Enabled(w, s) && (s.PutWeights? || s.PutConfig? || s.Insert?)
    ensures s.t in w.registrations && AloneSoFar(w, w.registrations[s.t])
  {
    hide AloneSoFar, LockedByOther, MayCrown;
  }

  lemma SlashFreeStays(w: World, s: Step, id: Id)
    requires OrderInv(w) && Enabled(w, s) && id in Next(w, s).models
    ensures '/' !in Next(w, s).models[id].name
  {
    hide Next, Enabled, Registered, StoredWeights, StoredMapping, PathOf;
    ModelStep(w, s, id);
    if id !in w.models { PutKnown(w, s); }
  }

  /** The pair of a registration after a step: as before, or the one just begun. */
  lemma PairAfter(w: World, s: Step, u: TxId)
    requires Enabled(w, s) && u in Next(w, s).registrations
    ensures
      var q := Next(w, s).registrations[u];
      if s.BeginRegister? && s.t == u then u !in w.registrations && q.name == s.name && q.version == s.version
      else u in w.registrations && q.name == w.registrations[u].name && q.version == w.registrations[u].version
  {
    hide Next, Registered, LockedByOther, MayCrown;
    RegistrationStep(w, s, u);
  }

  lemma PairsApart(w: World, s: Step, t: TxId, u: TxId)
    requires OrderInv(w) && Enabled(w, s) && Orderly(w, s)
    requires t in Next(w, s).registrations && u in Next(w, s).registrations && t != u
    ensures OtherPair(Next(w, s).registrations[t], Next(w, s).registrations[u])
  {
    hide Next, Enabled, AloneSoFar;
    PairAfter(w, s, t);
    PairAfter(w, s, u);
  }

  lemma OrderStep(w: World, s: Step)
    requires OrderInv(w) && Enabled(w, s) && Orderly(w, s)
    ensures OrderInv(Next(w, s))
  {
    hide Next, Enabled, Orderly, AloneSoFar, OtherPair;
    var v := Next(w, s);
    forall id | id in v.models ensures '/' !in v.models[id].name { SlashFreeStays(w, s, id); }
    forall u | u in v.registrations ensures AloneSoFar(v, v.registrations[u]) { OrderedAfter(w, s, u); }
    forall t, u | t in v.registrations && u in v.registrations && t != u
      ensures OtherPair(v.registrations[t], v.registrations[u])
    {
      PairsApart(w, s, t, u);
    }
  }

  lemma {:induction false} OrderlyRunsHarmless(w: World, steps: seq<Step>)
    requires Shape(w) && OrderInv(w) && w.given.Keys == w.models.Keys && OrderlyRuns(w, steps)
    ensures HarmlessRuns(w, steps)
    decreases |steps|
  {
    hide Shape, OrderInv, Next, Enabled, Orderly, Harmless;
    if steps != [] {
      OrderlyHarmless(w, steps[0]);
      ShapeStep(w, steps[0]);
      GivenKeys(Next(w, steps[0]));
      OrderStep(w, steps[0]);
      OrderlyRunsHarmless(Next(w, steps[0]), steps[1..]);
    }
  }

  /**
   Slash-free names and no two registrations of one pair under way at once are enough, whatever the loads could
   read: every model loads as registered, and a cached detector is the one built from it exactly when its filling
   load could read the configuration or the mapping was empty.
   */
  lemma CacheAgrees(bucket: string, steps: seq<Step>, id: Id)
    requires '/' !in bucket && Runs(Start(bucket), steps)
    ensures OrderlyRuns(Start(bucket), steps) ==>
      var w := After(Start(bucket), steps);
      && (id in w.models ==> id in w.given && Intact(w, id))
      && (id in w.cache ==>
            (CachedAsGiven(w, id) <==> FilledReadably(Start(bucket), steps, id, true) || NothingToMap(w, id)))
  {
    hide Runs, After, HarmlessRuns, FilledReadably, FillAlong, Intact, OrderlyRuns, Shape, OrderInv, CachedAsGiven;
    if OrderlyRuns(Start(bucket), steps) {
      StartShape(bucket);
      StartOrder(bucket);
      OrderlyRunsHarmless(Start(bucket), steps);
      IntactAlong(Start(bucket), steps, id);
      if id in After(Start(bucket), steps).cache { CacheExactly(bucket, steps, id); }
    }
  }

  lemma StartOrder(bucket: string)
    ensures OrderInv(Start(bucket))
  {
  }

  lemma {:induction false} IntactAlong(w: World, steps: seq<Step>, id: Id)
    requires Shape(w) && w.given.Keys == w.models.Keys && AllIntact(w) && HarmlessRuns(w, steps)
    ensures Runs(w, steps)
    ensures id in After(w, steps).models ==> id in After(w, steps).given && Intact(After(w, steps), id)
    decreases |steps|
  {
    hide Shape, Next, Enabled, Harmless, Intact;
    if steps != [] {
      ShapeStep(w, steps[0]);
      HarmlessExactly(w, steps[0]);
      IntactAlong(Next(w, steps[0]), steps[1..], id);
    }
  }

  // ---- What happens otherwise

  lemma LoadingKeepsEntry(w: World, k: Id, readable: bool, id: Id)
    requires k in w.models && id in w.cache
    ensures id in Loading(w, k, readable).cache && Loading(w, k, readable).cache[id] == w.cache[id]
  {
    hide ArtifactsAt;
  }

  /** A cached entry is never replaced while the process lives. */
  lemma EntryStays(w: World, s: Step, id: Id)
    requires Enabled(w, s) && !s.Restart? && id in w.cache
    ensures id in Next(w, s).cache && Next(w, s).cache[id] == w.cache[id]
  {
    hide Loading, Registered, WeightsKey, ConfigKey, NewModel, LockedByOther, MayCrown, Retiring, Promoted, ActiveIds;
    if s.Load? { LoadingKeepsEntry(w, s.id, s.configReadable, id); }
  }

  lemma {:induction false} EntryStaysAlong(w: World, steps: seq<Step>, id: Id)
    requires Runs(w, steps) && id in w.cache && forall k :: 0 <= k < |steps| ==> !steps[k].Restart?
    ensures id in After(w, steps).cache && After(w, steps).cache[id] == w.cache[id]
    decreases |steps|
  {
    hide Next, Enabled;
    if steps != [] {
      EntryStays(w, steps[0], id);
      EntryStaysAlong(Next(w, steps[0]), steps[1..], id);
    }
  }

  /**
   One unreadable configuration at the moment of loading: the detector is cached with an empty mapping, and
   keeps it through all later steps of the process, whatever they are and whatever was stored.
   */
  lemma FailedReadStays(w: World, id: Id, steps: seq<Step>)
    requires Shape(w) && id in w.models && id !in w.cache
    requires Runs(Next(w, Load(id, false)), steps) && forall k :: 0 <= k < |steps| ==> !steps[k].Restart?
    ensures
      var v := After(Next(w, Load(id, false)), steps);
      && id in v.cache && v.cache[id].mapping == map[]
      && (if id in w.disk then v.cache[id].weights == w.disk[id]
          else StoredWeights(w, w.models[id].name, w.models[id].version) == Some(v.cache[id].weights))
  {
    hide Next, Runs, After, Shape, ArtifactsAt, Loading, WeightsAt, ConfigAt, PathOf, StoredMapping;
    if id !in w.disk { StoredIs(w, w.models[id].name, w.models[id].version); }
    LoadNext(w, Load(id, false));
    LoadsObjects(w, id, false);
    LoadFills(w, id, false, Artifacts(Objects(w, w.models[id].name, w.models[id].version).weights, map[]));
    EntryStaysAlong(Next(w, Load(id, false)), steps, id);
  }

  /** Two overlapping registrations of one name and version, up to the point where the loser has written. */
  function OverlapStep(name: string, version: string, a: Artifacts, b: Artifacts, k: nat): Step {
    if k == 0 then BeginRegister(0, name, version, a)
    else if k == 1 then BeginRegister(1, name, version, b)
    else if k == 2 then PutWeights(0)
    else if k == 3 then PutConfig(0)
    else if k == 4 then Insert(0, 0)
    else PutWeights(1)
  }

  function OverlapRun(name: string, version: string, a: Artifacts, b: Artifacts, k: nat): seq<Step>
    decreases 6 - k
  {
    if k >= 6 then [] else [OverlapStep(name, version, a, b, k)] + OverlapRun(name, version, a, b, k + 1)
  }

  /** The world after k of those steps. */
  function OverlapWorld(bucket: string, name: string, version: string, a: Artifacts, b: Artifacts, k: nat): World {
    var first := Registration(name, version, a, if k <= 2 then Checked else if k == 3 then WeightsPut else ConfigPut);
    var second := Registration(name, version, b, if k <= 5 then Checked else WeightsPut);
    var weights, config := WeightsKey(bucket, name, version), ConfigKey(bucket, name, version);
    var registrations :=
      if k == 0 then map[] else if k == 1 then map[0 := first] else if k <= 4 then map[0 := first, 1 := second]
      else map[1 := second];
    var storage :=
      if k <= 2 then map[] else if k == 3 then map[weights := Weights(a.weights)]
      else if k <= 5 then Stored(map[], bucket, name, version, a)
      else Stored(map[], bucket, name, version, a)[weights := Weights(b.weights)];
    World(bucket, if k <= 4 then map[] else map[0 := NewModel(bucket, name, version)], storage, map[], registrations,
          map[], map[], if k <= 4 then map[] else map[0 := a])
  }

  lemma OverlapAdvances(bucket: string, name: string, version: string, a: Artifacts, b: Artifacts, k: nat)
    requires k < 6
    ensures
      var w, s := OverlapWorld(bucket, name, version, a, b, k), OverlapStep(name, version, a, b, k);
      Enabled(w, s) && Next(w, s) == OverlapWorld(bucket, name, version, a, b, k + 1)
  {
    hide WeightsKey, ConfigKey, NewModel, LockedByOther, MayCrown;
    var w := OverlapWorld(bucket, name, version, a, b, k);
    assert w.registrations - {0} == if k == 4 then map[1 := w.registrations[1]] else w.registrations - {0};
    if k == 5 { assert w.storage == Stored(map[], bucket, name, version, a); }
  }

  lemma {:induction false} OverlapHappens(bucket: string, name: string, version: string, a: Artifacts, b: Artifacts, k: nat)
    requires k <= 6
    ensures Runs(OverlapWorld(bucket, name, version, a, b, k), OverlapRun(name, version, a, b, k))
    ensures
      After(OverlapWorld(bucket, name, version, a, b, k), OverlapRun(name, version, a, b, k))
        == OverlapWorld(bucket, name, version, a, b, 6)
    decreases 6 - k
  {
    hide OverlapWorld, OverlapStep, Next, Enabled;
    if k < 6 {
      OverlapAdvances(bucket, name, version, a, b, k);
      OverlapHappens(bucket, name, version, a, b, k + 1);
      RunsCons(OverlapWorld(bucket, name, version, a, b, k), OverlapStep(name, version, a, b, k),
        OverlapRun(name, version, a, b, k + 1));
    }
  }

  /**
   The check of `register` runs before its writes, so two registrations of one pair can overlap: the model that
   was inserted then loads, and a detector is cached with, the weights of the registration that is going to be
   refused, and its own mapping.
   */
  lemma LoserOverwrites(bucket: string, name: string, version: string, a: Artifacts, b: Artifacts)
    requires '/' !in bucket
    ensures Runs(Start(bucket), OverlapRun(name, version, a, b, 0))
    ensures
      var v := After(Start(bucket), OverlapRun(name, version, a, b, 0));
      && 0 in v.models && 0 in v.given && v.given[0] == a
      && ArtifactsAt(v.storage, v.models[0].path, true) == Ok(Artifacts(b.weights, a.mapping))
      && Enabled(v, Load(0, true))
      && 0 in Next(v, Load(0, true)).cache && Next(v, Load(0, true)).cache[0] == Loaded(b.weights, a.mapping)
  {
    hide Runs, OverlapRun, WeightsKey, ConfigKey, PathOf, ArtifactsAt, After, Loading;
    OverlapHappens(bucket, name, version, a, b, 0);
    KeysShared(bucket, name, version, name, version);
    var v := OverlapWorld(bucket, name, version, a, b, 6);
    LoadsAtKeys(v.storage, bucket, name, version, true);
    LoadFills(v, 0, true, Artifacts(b.weights, a.mapping));
  }
}

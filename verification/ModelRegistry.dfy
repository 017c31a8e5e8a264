/**
 The registry of models (model_registry.py) and the cache of loaded detectors (analysis_worker.py,
 detector.py): rows of ai_models, objects in storage under paths built from name and version, and
 detectors kept by model id.
 */
module ModelRegistry {
  import opened Wrappers

  type Id = nat
  type Bytes = seq<bv8>
  type Mapping = map<string, string>

  datatype ModelStatus = TRAINING | VALIDATING | STAGING | PRODUCTION | DEPRECATED | FAILED

  datatype Model = Model(name: string, version: string, path: string, status: ModelStatus, active: bool)

  /** An object in storage: raw weights, or the JSON configuration with its class mapping. */
  datatype Blob = Weights(bytes: Bytes) | Config(mapping: Mapping)

  /** A bucket and an object name. */
  datatype Key = Key(bucket: string, objectName: string)

  datatype Artifacts = Artifacts(weights: Bytes, mapping: Mapping)

  /** A loaded detector: the weights file it was built from and its class mapping. */
  datatype Loaded = Loaded(weights: Bytes, mapping: Mapping)

  datatype RegistryError = AlreadyRegistered | ModelNotFound | AlreadyInProduction | NoWeightsPath | NoSuchObject

  // ---- Paths

  /** `s.partition("/")`: what comes before and after the first slash. */
  function Partition(s: string): (string, string) {
    if s == "" then ("", "")
    else if s[0] == '/' then ("", s[1..])
    else
      var (a, b) := Partition(s[1..]);
      ([s[0]] + a, b)
  }

  /** `s.rsplit("/", 1)[0]`: what comes before the last slash, or everything without one. */
  function BeforeLast(s: string): string {
    if s == "" then ""
    else if s[|s| - 1] == '/' then s[..|s| - 1]
    else if '/' in s[..|s| - 1] then BeforeLast(s[..|s| - 1])
    else s
  }

  function Prefix(name: string, version: string): string {
    name + "/" + version
  }

  function WeightsKey(bucket: string, name: string, version: string): Key {
    Key(bucket, Prefix(name, version) + "/best.pt")
  }

  function ConfigKey(bucket: string, name: string, version: string): Key {
    Key(bucket, Prefix(name, version) + "/model_config.json")
  }

  function PathOf(bucket: string, name: string, version: string): string {
    bucket + "/" + Prefix(name, version) + "/best.pt"
  }

  lemma {:induction false} PartitionAt(a: string, b: string)
    requires '/' !in a
    ensures Partition(a + "/" + b) == (a, b)
  {
    if a == "" {
      assert "" + "/" + b == "/" + b;
      assert ("/" + b)[1..] == b;
    } else {
      PartitionAt(a[1..], b);
      assert (a + "/" + b)[1..] == a[1..] + "/" + b;
      assert a == [a[0]] + a[1..];
    }
  }

  lemma {:induction false} BeforeLastAt(a: string, b: string)
    requires '/' !in b
    ensures BeforeLast(a + "/" + b) == a
  {
    var s := a + "/" + b;
    if b == "" {
      assert s[..|s| - 1] == a;
    } else {
      var front := b[..|b| - 1];
      assert s[..|s| - 1] == a + "/" + front;
      assert (a + "/" + front)[|a|] == '/';
      BeforeLastAt(a, front);
    }
  }

  /** Taking the stored path apart gives back the two keys `register` wrote, for a bucket without a slash. */
  lemma PathRoundTrip(bucket: string, name: string, version: string)
    requires '/' !in bucket
    ensures
      var (b, objectName) := Partition(PathOf(bucket, name, version));
      Key(b, objectName) == WeightsKey(bucket, name, version)
      && Key(b, BeforeLast(objectName) + "/model_config.json") == ConfigKey(bucket, name, version)
  {
    var objectName := Prefix(name, version) + "/best.pt";
    assert PathOf(bucket, name, version) == bucket + "/" + objectName;
    PartitionAt(bucket, objectName);
    assert objectName == Prefix(name, version) + "/" + "best.pt";
    BeforeLastAt(Prefix(name, version), "best.pt");
  }

  /** With names free of slashes, two models share a prefix only when they share name and version. */
  lemma PrefixInjective(n: string, v: string, m: string, u: string)
    requires '/' !in n && '/' !in m && Prefix(n, v) == Prefix(m, u)
    ensures n == m && v == u
  {
    PartitionAt(n, v);
    PartitionAt(m, u);
  }

  lemma SameTail(a: string, b: string, tail: string)
    requires a + tail == b + tail
    ensures a == b
  {
    assert |a| == |b|;
    assert (a + tail)[..|a|] == a && (b + tail)[..|a|] == b;
  }

  /** Whatever the names, two models share their objects exactly when they share the prefix, and weights are never a configuration. */
  lemma KeysShared(bucket: string, n: string, v: string, m: string, u: string)
    ensures WeightsKey(bucket, n, v) != ConfigKey(bucket, m, u)
    ensures WeightsKey(bucket, n, v) == WeightsKey(bucket, m, u) <==> Prefix(n, v) == Prefix(m, u)
    ensures ConfigKey(bucket, n, v) == ConfigKey(bucket, m, u) <==> Prefix(n, v) == Prefix(m, u)
  {
    var a, b := Prefix(n, v) + "/best.pt", Prefix(m, u) + "/model_config.json";
    assert a[|a| - 1] == 't' && b[|b| - 1] == 'n';
    if a == Prefix(m, u) + "/best.pt" { SameTail(Prefix(n, v), Prefix(m, u), "/best.pt"); }
    if b == Prefix(n, v) + "/model_config.json" { SameTail(Prefix(n, v), Prefix(m, u), "/model_config.json"); }
  }

  /** Keys of different models with slash-free names differ. */
  lemma KeysApart(bucket: string, n: string, v: string, m: string, u: string)
    requires '/' !in n && '/' !in m
    ensures WeightsKey(bucket, n, v) != ConfigKey(bucket, m, u)
    ensures (n, v) != (m, u) ==>
      WeightsKey(bucket, n, v) != WeightsKey(bucket, m, u) && ConfigKey(bucket, n, v) != ConfigKey(bucket, m, u)
  {
    hide *;
    KeysShared(bucket, n, v, m, u);
    if Prefix(n, v) == Prefix(m, u) { PrefixInjective(n, v, m, u); }
  }

  // ---- Which pairs collide

  /** The lengths the registration form accepts. */
  predicate Acceptable(name: string, version: string) {
    3 <= |name| <= 200 && 1 <= |version| <= 50
  }

  ghost predicate Collide(n: string, v: string, m: string, u: string) {
    (n, v) != (m, u) && Prefix(n, v) == Prefix(m, u)
  }

  lemma PrefixAt(n: string, v: string, i: nat)
    ensures |Prefix(n, v)| == |n| + 1 + |v|
    ensures i < |n| ==> Prefix(n, v)[i] == n[i]
    ensures |n| < i < |Prefix(n, v)| ==> Prefix(n, v)[i] == v[i - |n| - 1]
  {
  }

  /** Cutting the prefix at another of its slashes gives another pair with the same objects. */
  lemma CutCollides(n: string, v: string, i: nat)
    requires i < |Prefix(n, v)| && Prefix(n, v)[i] == '/' && i != |n|
    ensures Collide(n, v, Prefix(n, v)[..i], Prefix(n, v)[i + 1..])
  {
    var s := Prefix(n, v);
    assert s == s[..i] + "/" + s[i + 1..];
    assert |s[..i]| != |n|;
  }

  /** And every colliding pair is such a cut. */
  lemma CollisionIsCut(n: string, v: string, m: string, u: string)
    requires Collide(n, v, m, u)
    ensures |m| < |Prefix(n, v)| && Prefix(n, v)[|m|] == '/' && |m| != |n|
    ensures Prefix(n, v)[..|m|] == m && Prefix(n, v)[|m| + 1..] == u
  {
    var s := Prefix(m, u);
    assert s[..|m|] == m && s[|m|] == '/' && s[|m| + 1..] == u;
    assert Prefix(n, v)[..|n|] == n && Prefix(n, v)[|n| + 1..] == v;
  }

  /** A pair shares its objects with some other pair exactly when its name or its version contains a slash. */
  lemma CollidesExactly(n: string, v: string)
    ensures (exists m, u :: Collide(n, v, m, u)) <==> '/' in n || '/' in v
  {
    hide *;
    if '/' in n {
      var i :| 0 <= i < |n| && n[i] == '/';
      PrefixAt(n, v, i);
      CutCollides(n, v, i);
    } else if '/' in v {
      var i :| 0 <= i < |v| && v[i] == '/';
      PrefixAt(n, v, |n| + 1 + i);
      CutCollides(n, v, |n| + 1 + i);
    }
    if m, u :| Collide(n, v, m, u) {
      CollisionIsCut(n, v, m, u);
      PrefixAt(n, v, |m|);
    }
  }

  /** Among the pairs the form accepts: exactly when another slash of the prefix leaves acceptable lengths on both sides. */
  lemma AcceptableCollidesExactly(n: string, v: string)
    ensures
      (exists m, u :: Acceptable(m, u) && Collide(n, v, m, u)) <==>
      var s := Prefix(n, v);
      exists i {:trigger s[i]} :: 3 <= i <= 200 && i < |s| && s[i] == '/' && i != |n| && 1 <= |s| - i - 1 <= 50
  {
    var s := Prefix(n, v);
    if m, u :| Acceptable(m, u) && Collide(n, v, m, u) {
      CollisionIsCut(n, v, m, u);
      assert s[|m|] == '/' && |s| - |m| - 1 == |u|;
    }
    if i {:trigger s[i]} :| 3 <= i <= 200 && i < |s| && s[i] == '/' && i != |n| && 1 <= |s| - i - 1 <= 50 {
      CutCollides(n, v, i);
      assert Acceptable(s[..i], s[i + 1..]);
    }
  }

  /** Two pairs the form accepts, under one set of objects. */
  lemma SlashedNamesCollide()
    ensures Acceptable("abc", "d/1") && Acceptable("abc/d", "1") && Collide("abc", "d/1", "abc/d", "1")
    ensures forall bucket ::
      WeightsKey(bucket, "abc", "d/1") == WeightsKey(bucket, "abc/d", "1")
      && ConfigKey(bucket, "abc", "d/1") == ConfigKey(bucket, "abc/d", "1")
  {
    assert Prefix("abc", "d/1") == "abc/d/1" == Prefix("abc/d", "1");
  }

  // ---- Reads

  function ActiveIds(models: map<Id, Model>): set<Id> {
    set m | m in models && models[m].active
  }

  predicate Registered(models: map<Id, Model>, name: string, version: string) {
    exists m :: m in models && models[m].name == name && models[m].version == version
  }

  /** `load_artifacts`, when the read of the configuration succeeds or not; its failure is swallowed. */
  function ArtifactsAt(storage: map<Key, Blob>, path: string, configReadable: bool): Result<Artifacts, RegistryError> {
    if path == "" then Err(NoWeightsPath)
    else
      var (bucket, objectName) := Partition(path);
      var weights, config := Key(bucket, objectName), Key(bucket, BeforeLast(objectName) + "/model_config.json");
      if weights !in storage || !storage[weights].Weights? then Err(NoSuchObject)
      else Ok(Artifacts(storage[weights].bytes,
        if configReadable && config in storage && storage[config].Config? then storage[config].mapping else map[]))
  }

  /** The objects under the keys of one name and version, as one pair of artifacts. */
  predicate Holds(storage: map<Key, Blob>, bucket: string, name: string, version: string, a: Artifacts) {
    && WeightsKey(bucket, name, version) in storage
    && storage[WeightsKey(bucket, name, version)] == Weights(a.weights)
    && ConfigKey(bucket, name, version) in storage
    && storage[ConfigKey(bucket, name, version)] == Config(a.mapping)
  }

  /** A path `register` built leads back to the objects under its keys; a missing configuration is an empty mapping. */
  lemma LoadsAtKeys(storage: map<Key, Blob>, bucket: string, name: string, version: string, readable: bool)
    requires '/' !in bucket
    ensures
      var weights, config := WeightsKey(bucket, name, version), ConfigKey(bucket, name, version);
      ArtifactsAt(storage, PathOf(bucket, name, version), readable) ==
        if weights in storage && storage[weights].Weights? then
          Ok(Artifacts(storage[weights].bytes,
            if readable && config in storage && storage[config].Config? then storage[config].mapping else map[]))
        else Err(NoSuchObject)
  {
    hide PathOf, WeightsKey, ConfigKey, Partition, BeforeLast;
    PathRoundTrip(bucket, name, version);
    PathNotEmpty(bucket, name, version);
  }

  lemma PathNotEmpty(bucket: string, name: string, version: string)
    ensures PathOf(bucket, name, version) != ""
  {
  }

  // ---- Writes, on values

  /** The rows after the statements of a promotion. */
  function Promoted(models: map<Id, Model>, retired: set<Id>, id: Id): map<Id, Model>
    requires id in models
  {
    map m | m in models ::
      if m == id then models[m].(active := true, status := PRODUCTION)
      else if m in retired then models[m].(active := false, status := DEPRECATED)
      else models[m]
  }

  function Stored(storage: map<Key, Blob>, bucket: string, name: string, version: string, a: Artifacts): map<Key, Blob> {
    storage[WeightsKey(bucket, name, version) := Weights(a.weights)][ConfigKey(bucket, name, version) := Config(a.mapping)]
  }

  function NewModel(bucket: string, name: string, version: string): Model {
    Model(name, version, PathOf(bucket, name, version), STAGING, false)
  }

  /** What the locked part of `_get_detector` does to cache and disk, given what the fetch answered. */
  ghost predicate Gets(
    cache: map<Id, Loaded>, disk: map<Id, Bytes>, id: Id, fetched: Result<Artifacts, RegistryError>,
    cache': map<Id, Loaded>, disk': map<Id, Bytes>)
  {
    if id in cache || fetched.Err? then cache' == cache && disk' == disk
    else
      && disk' == (if id in disk then disk else disk[id := fetched.value.weights])
      && cache' == cache[id := Loaded(disk'[id], fetched.value.mapping)]
  }

  // ---- The registry, one call at a time

  class Registry {
    const bucket: string
    var models: map<Id, Model>
    var storage: map<Key, Blob>

    constructor (bucket: string)
      ensures this.bucket == bucket && models == map[] && storage == map[]
    {
      this.bucket := bucket;
      models, storage := map[], map[];
    }

    /** `register`: both objects first, then the row; a known name and version is refused before any write. */
    method Register(id: Id, name: string, version: string, weights: Bytes, mapping: Mapping)
      returns (r: Result<(), RegistryError>)
      requires id !in models
      modifies this
      ensures r.Ok? <==> !Registered(old(models), name, version)
      ensures r.Ok? ==> storage == Stored(old(storage), bucket, name, version, Artifacts(weights, mapping))
      ensures r.Ok? ==> models == old(models)[id := NewModel(bucket, name, version)]
      ensures r.Err? ==> r.error == AlreadyRegistered && models == old(models) && storage == old(storage)
    {
      if exists m :: m in models && models[m].name == name && models[m].version == version {
        return Err(AlreadyRegistered);
      }
      var prefix := name + "/" + version;
      storage := storage[Key(bucket, prefix + "/best.pt") := Weights(weights)];
      storage := storage[Key(bucket, prefix + "/model_config.json") := Config(mapping)];
      assert bucket + "/" + prefix + "/best.pt" == PathOf(bucket, name, version);
      models := models[id := Model(name, version, bucket + "/" + prefix + "/best.pt", STAGING, false)];
      return Ok(());
    }

    /** `promote`: retire every active row, then crown the successor, in one commit. */
    method Promote(id: Id) returns (r: Result<(), RegistryError>)
      modifies this`models
      ensures r.Ok? <==> id in old(models) && !old(models)[id].active
      ensures r.Ok? ==> models == Promoted(old(models), ActiveIds(old(models)), id)
      ensures r.Ok? ==> models.Keys == old(models).Keys && forall m :: m in models ==>
        models[m] ==
          if m == id then old(models)[m].(active := true, status := PRODUCTION)
          else if old(models)[m].active then old(models)[m].(active := false, status := DEPRECATED)
          else old(models)[m]
      ensures r.Err? ==> models == old(models) && r.error == (if id in models then AlreadyInProduction else ModelNotFound)
    {
      if id !in models {
        return Err(ModelNotFound);
      }
      if models[id].active {
        return Err(AlreadyInProduction);
      }
      var all := ActiveIds(models);
      var rest := all;
      while rest != {}
        invariant rest <= all
        invariant models.Keys == old(models).Keys
        invariant forall m :: m in models ==>
          models[m] == (if m in all - rest then old(models)[m].(active := false, status := DEPRECATED) else old(models)[m])
        decreases rest
      {
        var m :| m in rest;
        models := models[m := models[m].(active := false, status := DEPRECATED)];
        rest := rest - {m};
      }
      models := models[id := models[id].(active := true, status := PRODUCTION)];
      return Ok(());
    }

    /** `load_artifacts`, on a storage that answers: for a path of `register`, the objects it wrote there. */
    method LoadArtifacts(model: Model) returns (r: Result<Artifacts, RegistryError>)
      ensures r == ArtifactsAt(storage, model.path, true)
      ensures model.path == "" ==> r == Err(NoWeightsPath)
      ensures '/' !in bucket && model.path == PathOf(bucket, model.name, model.version) ==>
        var weights, config := WeightsKey(bucket, model.name, model.version), ConfigKey(bucket, model.name, model.version);
        && (weights !in storage ==> r == Err(NoSuchObject))
        && (weights in storage && storage[weights].Weights? && config !in storage ==>
              r == Ok(Artifacts(storage[weights].bytes, map[])))
        && forall a :: Holds(storage, bucket, model.name, model.version, a) ==> r == Ok(a)
    {
      if '/' !in bucket { LoadsAtKeys(storage, bucket, model.name, model.version, true); }
      if model.path == "" {
        return Err(NoWeightsPath);
      }
      var (b, objectName) := Partition(model.path);
      if Key(b, objectName) !in storage || !storage[Key(b, objectName)].Weights? {
        return Err(NoSuchObject);
      }
      var config := Key(b, BeforeLast(objectName) + "/model_config.json");
      var mapping: Mapping := map[];
      if config in storage && storage[config].Config? {
        mapping := storage[config].mapping;
      }
      return Ok(Artifacts(storage[Key(b, objectName)].bytes, mapping));
    }
  }

  /** The files of weights already on disk, and the detectors already loaded, by model id. */
  class DetectorCache {
    var cache: map<Id, Loaded>
    var disk: map<Id, Bytes>

    constructor ()
      ensures cache == map[] && disk == map[]
    {
      cache, disk := map[], map[];
    }

    /** The locked part of `_get_detector`: load on a miss, and never write a weights file twice. */
    method Get(id: Id, fetched: Result<Artifacts, RegistryError>) returns (r: Result<Loaded, RegistryError>)
      modifies this
      ensures r.Ok? <==> id in old(cache) || fetched.Ok?
      ensures r.Ok? ==> cache == old(cache)[id := r.value]
      ensures id in old(cache) ==> r == Ok(old(cache)[id]) && disk == old(disk)
      ensures id !in old(cache) && fetched.Ok? ==>
        && disk == (if id in old(disk) then old(disk) else old(disk)[id := fetched.value.weights])
        && r == Ok(Loaded(disk[id], fetched.value.mapping))
      ensures r.Err? ==> cache == old(cache) && disk == old(disk)
      ensures Gets(old(cache), old(disk), id, fetched, cache, disk)
    {
      if id !in cache {
        if fetched.Err? {
          return Err(fetched.error);
        }
        if id !in disk {
          disk := disk[id := fetched.value.weights];
        }
        cache := cache[id := Loaded(disk[id], fetched.value.mapping)];
      }
      return Ok(cache[id]);
    }
  }

  /** The layout of the bucket, on one model. */
  lemma StoredPath()
    ensures PathOf("models", "yolo", "v1") == "models/yolo/v1/best.pt"
    ensures WeightsKey("models", "yolo", "v1") == Key("models", "yolo/v1/best.pt")
    ensures ConfigKey("models", "yolo", "v1") == Key("models", "yolo/v1/model_config.json")
  {
    assert "yolo" + "/" + "v1" == "yolo/v1";
    assert "yolo/v1" + "/best.pt" == "yolo/v1/best.pt";
    assert "yolo/v1" + "/model_config.json" == "yolo/v1/model_config.json";
    assert "models" + "/" + "yolo/v1" + "/best.pt" == "models/yolo/v1/best.pt";
  }
}

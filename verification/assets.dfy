/** The asset manifest and its load state: a common group and one group per
    level, each a set of typed buckets (name -> path) plus a loaded and a
    loading flag. `load(level)` fans out to the per-type loaders whenever its
    scope is neither loaded nor loading. As written it never sets the loading
    flag, so overlapping loads both fan out; a rejected or stalled load
    changes no flag, so the scope can be loaded again; a load of an unknown
    level fans out every time; a fully resolved load marks its scope and the
    common group loaded.

    The source builds every group by spreading and mutating shared module
    constants; this module uses value semantics (a fresh default group each
    time), and AssetsShared models the shared-object behaviour as written. */
module Assets {

  import opened Values
  import opened Strings
  import opened Promises
  import Models

  /** The values of ASSETS_TYPES, as the accessors read them. */
  const AssetTypes: set<string> :=
    {"audio", "video", "images", "textures", "cubetextures", "models", "particles", "scripts", "shaders"}

  type Bucket = map<string, string>

  datatype Group = Group(buckets: map<string, Bucket>, isLoaded: bool, isLoading: bool)

  datatype Store = Store(common: Group, levels: map<string, Group>)

  /** DEFAULT_COMMON_ASSETS: an empty bucket of every type, both flags false. */
  const DefaultGroup: Group := Group(map t | t in AssetTypes :: map[], false, false)

  /** DEFAULT_ASSETS: the default common group and no levels. */
  const Initial: Store := Store(DefaultGroup, map[])

  /** The value under one top-level manifest key: a name -> path bucket (for
      a type key), a level object whose buckets and flags override the
      defaults, or a falsy value. */
  datatype RawValue =
    | Paths(paths: Bucket)
    | Overrides(buckets: map<string, Bucket>, isLoaded: Option<bool>, isLoading: Option<bool>)
    | Falsy

  /** A raw manifest: its keys with their values, in `Object.keys` order. */
  type Manifest = seq<(string, RawValue)>

  function AsBucket(v: RawValue): Bucket {
    match v
    case Paths(p) => p
    case _ => map[]
  }

  /** `{ ...base, ...value }`, with a falsy value read as `{}`. */
  function Overlay(base: Group, v: RawValue): Group {
    match v
    case Overrides(b, loaded, loading) =>
      Group(base.buckets + b, loaded.GetOr(base.isLoaded), loading.GetOr(base.isLoading))
    case _ => base
  }

  /** Every group has a bucket of every type. */
  predicate Seeded(g: Group) {
    AssetTypes <= g.buckets.Keys
  }

  predicate WellFormed(s: Store) {
    Seeded(s.common) && forall l :: l in s.levels ==> Seeded(s.levels[l])
  }

  /** One step of the `parseAssets` reducer: a key whose lower-case form is a
      type replaces that common bucket; a level-shaped one (lower-cased)
      becomes a level group overlaid on `seed`; any other key is ignored. */
  function Step(isLevelName: string -> bool, acc: Store, key: string, v: RawValue, seed: Group): Store {
    var lower := Lower(key);
    if lower in AssetTypes then
      acc.(common := acc.common.(buckets := acc.common.buckets[lower := AsBucket(v)]))
    else if isLevelName(lower) then
      acc.(levels := acc.levels[lower := Overlay(seed, v)])
    else acc
  }

  /** The value of the last key of `m` whose lower-case form is `k`. */
  function LastValue(m: Manifest, k: string): Option<RawValue>
    decreases |m|
  {
    if |m| == 0 then None
    else if Lower(m[|m| - 1].0) == k then Some(m[|m| - 1].1)
    else LastValue(m[..|m| - 1], k)
  }

  /** The bucket a last value gives a common type: its paths, or empty. */
  function BucketFrom(v: Option<RawValue>): Bucket {
    if v.Some? then AsBucket(v.value) else map[]
  }

  /** The common group holds, for each type, the bucket of the last key that
      lower-cases to it, and an empty bucket when there is none. */
  ghost predicate CommonFrom(s: Store, m: Manifest) {
    && s.common.buckets.Keys == AssetTypes
    && forall t :: t in AssetTypes ==> s.common.buckets[t] == BucketFrom(LastValue(m, t))
  }

  /** The levels are exactly the level-shaped lower-case keys that are not
      type names, each the default group overlaid with its last value. */
  ghost predicate LevelsFrom(isLevelName: string -> bool, levels: map<string, Group>, m: Manifest) {
    && (forall l :: l in levels <==> l !in AssetTypes && isLevelName(l) && LastValue(m, l).Some?)
    && (forall l :: l in levels ==> levels[l] == Overlay(DefaultGroup, LastValue(m, l).value))
  }

  /** `parseAssets(assets)`: `Object.keys(assets).reduce(reducer, defaults)`,
      each level seeded from a fresh default group. */
  function ParseAssets(isLevelName: string -> bool, m: Manifest): (s: Store)
    ensures WellFormed(s)
    ensures !s.common.isLoaded && !s.common.isLoading
    decreases |m|
  {
    if |m| == 0 then Initial
    else Step(isLevelName, ParseAssets(isLevelName, m[..|m| - 1]), m[|m| - 1].0, m[|m| - 1].1, DefaultGroup)
  }

  /** What `parseAssets` builds: each common bucket from the last key naming
      its type, each level from the last key naming it, and nothing else. */
  lemma {:induction false} ParseAssetsMeaning(isLevelName: string -> bool, m: Manifest)
    ensures CommonFrom(ParseAssets(isLevelName, m), m)
    ensures LevelsFrom(isLevelName, ParseAssets(isLevelName, m).levels, m)
    decreases |m|
  {
    if |m| > 0 {
      var prev := ParseAssets(isLevelName, m[..|m| - 1]);
      ParseAssetsMeaning(isLevelName, m[..|m| - 1]);
      CommonStep(isLevelName, prev, m);
      LevelsStep(isLevelName, prev, m);
    }
  }

  lemma CommonStep(isLevelName: string -> bool, prev: Store, m: Manifest)
    requires |m| > 0
    requires Seeded(prev.common) && CommonFrom(prev, m[..|m| - 1])
    ensures var s := Step(isLevelName, prev, m[|m| - 1].0, m[|m| - 1].1, DefaultGroup);
      && Seeded(s.common) && s.common.isLoaded == prev.common.isLoaded && s.common.isLoading == prev.common.isLoading
      && CommonFrom(s, m)
  {
    var (key, v) := m[|m| - 1];
    var s := Step(isLevelName, prev, key, v, DefaultGroup);
    forall t | t in AssetTypes ensures s.common.buckets[t] == BucketFrom(LastValue(m, t)) {
      assert LastValue(m, t) == if Lower(key) == t then Some(v) else LastValue(m[..|m| - 1], t);
    }
  }

  lemma LevelsStep(isLevelName: string -> bool, prev: Store, m: Manifest)
    requires |m| > 0
    requires LevelsFrom(isLevelName, prev.levels, m[..|m| - 1])
    ensures LevelsFrom(isLevelName, Step(isLevelName, prev, m[|m| - 1].0, m[|m| - 1].1, DefaultGroup).levels, m)
  {
    var (key, v) := m[|m| - 1];
    var lower := Lower(key);
    var added := lower !in AssetTypes && isLevelName(lower);
    var levels := if added then prev.levels[lower := Overlay(DefaultGroup, v)] else prev.levels;
    assert Step(isLevelName, prev, key, v, DefaultGroup).levels == levels;
    LevelsExtend(isLevelName, prev.levels, levels, m[..|m| - 1], m, lower, v, added);
  }

  /** The level part of one reducer step, with the key already folded. */
  lemma LevelsExtend(isLevelName: string -> bool, before: map<string, Group>, after: map<string, Group>,
                     prefix: Manifest, m: Manifest, lower: string, v: RawValue, added: bool)
    requires |m| > 0 && prefix == m[..|m| - 1] && Lower(m[|m| - 1].0) == lower && m[|m| - 1].1 == v
    requires added == (lower !in AssetTypes && isLevelName(lower))
    requires after == if added then before[lower := Overlay(DefaultGroup, v)] else before
    requires LevelsFrom(isLevelName, before, prefix)
    ensures LevelsFrom(isLevelName, after, m)
  {
    forall l ensures LastValue(m, l) == if lower == l then Some(v) else LastValue(prefix, l) {
    }
  }

  /** A key that is neither a type nor a level name leaves the result alone. */
  lemma UnknownKeyIgnored(isLevelName: string -> bool, m: Manifest, key: string, v: RawValue)
    requires Lower(key) !in AssetTypes && !isLevelName(Lower(key))
    ensures ParseAssets(isLevelName, m + [(key, v)]) == ParseAssets(isLevelName, m)
  {
    assert (m + [(key, v)])[..|m|] == m;
  }

  /** A level group holds empty buckets for every type it does not override,
      and both flags are false unless the manifest sets them. */
  lemma LevelsStartFromEmptyDefaults(isLevelName: string -> bool, m: Manifest, l: string, t: string)
    requires l in ParseAssets(isLevelName, m).levels && t in AssetTypes
    ensures LastValue(m, l).Some?
    ensures var g := ParseAssets(isLevelName, m).levels[l];
      var v := LastValue(m, l).value;
      && (v.Overrides? && t in v.buckets ==> g.buckets[t] == v.buckets[t])
      && (!(v.Overrides? && t in v.buckets) ==> g.buckets[t] == map[])
      && (g.isLoaded <==> v.Overrides? && v.isLoaded == Some(true))
      && (g.isLoading <==> v.Overrides? && v.isLoading == Some(true))
  {
    ParseAssetsMeaning(isLevelName, m);
  }

  /** A manifest with one common bucket and one level: the bucket lands in
      the common group, and the level gets its own buckets over empty
      defaults, with nothing from the common group. */
  lemma TwoKeyPartition(isLevelName: string -> bool, t: string, p: Bucket, l: string, b: map<string, Bucket>)
    requires t in AssetTypes && Lower(t) == t
    requires l !in AssetTypes && Lower(l) == l && isLevelName(l)
    ensures var s := ParseAssets(isLevelName, [(t, Paths(p)), (l, Overrides(b, None, None))]);
      && s.common.buckets[t] == p
      && s.levels.Keys == {l}
      && s.levels[l] == Group(DefaultGroup.buckets + b, false, false)
  {
    var m := [(t, Paths(p)), (l, Overrides(b, None, None))];
    assert m[..1] == [(t, Paths(p))] && m[..1][..0] == [];
    var first := Step(isLevelName, Initial, t, Paths(p), DefaultGroup);
    assert ParseAssets(isLevelName, m[..1]) == first;
  }

  /** An example manifest: a common audio entry and a level
      holding one model. */
  const Example: Manifest := [
    ("audio", Paths(map["a" := "a.mp3"])),
    ("level1", Overrides(map["models" := map["m" := "m.glb"]], None, None))]

  lemma ExamplePartition(isLevelName: string -> bool)
    requires isLevelName("level1")
    ensures var s := ParseAssets(isLevelName, Example);
      && s.common.buckets["audio"] == map["a" := "a.mp3"]
      && s.levels.Keys == {"level1"}
      && s.levels["level1"].buckets["models"] == map["m" := "m.glb"]
      && s.levels["level1"].buckets["audio"] == map[]
      && !s.levels["level1"].isLoaded && !s.levels["level1"].isLoading
  {
    assert Lower("audio") == "audio";
    assert Lower("level1") == "level1";
    TwoKeyPartition(isLevelName, "audio", map["a" := "a.mp3"], "level1", map["models" := map["m" := "m.glb"]]);
  }

  /** `setAssets(assets)`: the previous store is replaced by the parse of the
      manifest, whatever it held. */
  function SetAssets(isLevelName: string -> bool, m: Manifest): (r: Store)
    ensures WellFormed(r) && !r.common.isLoaded && !r.common.isLoading
    ensures CommonFrom(r, m) && LevelsFrom(isLevelName, r.levels, m)
  {
    ParseAssetsMeaning(isLevelName, m);
    ParseAssets(isLevelName, m)
  }

  /** `getLevelAssets(level)`: the level group, or the default group. */
  function LevelAssets(s: Store, level: string): (g: Group)
    ensures level !in s.levels ==> g == DefaultGroup
    ensures level in s.levels ==> g == s.levels[level]
  {
    if level in s.levels then s.levels[level] else DefaultGroup
  }

  /** Is a `level` argument truthy? `undefined` and "" are not. */
  predicate Truthy(level: Option<string>) {
    level.Some? && level.value != ""
  }

  /** The bucket accessors (`audio(level)`, `models(level)`, ...; the
      `cubeTextures` accessor reads the "cubetextures" bucket). */
  function BucketOf(s: Store, t: string, level: Option<string>): (b: Bucket)
    requires WellFormed(s) && t in AssetTypes
    ensures Truthy(level) && level.value in s.levels ==> b == s.levels[level.value].buckets[t]
    ensures Truthy(level) && level.value !in s.levels ==> b == map[]
    ensures !Truthy(level) ==> b == s.common.buckets[t]
  {
    var g := if Truthy(level) then LevelAssets(s, level.value) else s.common;
    g.buckets[t]
  }

  /** The key a level setter writes: `levels[undefined]` is `levels["undefined"]`. */
  function LevelKey(level: Option<string>): string {
    JsText(level)
  }

  /** `setLevelAssetsLoadedState(loaded, level)`: only an existing level's
      loaded flag is written. */
  function SetLevelLoaded(s: Store, loaded: bool, level: Option<string>): (r: Store)
    ensures r.common == s.common && r.levels.Keys == s.levels.Keys
    ensures forall l :: l in s.levels ==>
      r.levels[l] == if l == LevelKey(level) then s.levels[l].(isLoaded := loaded) else s.levels[l]
  {
    var k := LevelKey(level);
    if k in s.levels then s.(levels := s.levels[k := s.levels[k].(isLoaded := loaded)]) else s
  }

  /** `setLevelAssetsLoadingState(loading, level)`. */
  function SetLevelLoading(s: Store, loading: bool, level: Option<string>): (r: Store)
    ensures r.common == s.common && r.levels.Keys == s.levels.Keys
    ensures forall l :: l in s.levels ==>
      r.levels[l] == if l == LevelKey(level) then s.levels[l].(isLoading := loading) else s.levels[l]
  {
    var k := LevelKey(level);
    if k in s.levels then s.(levels := s.levels[k := s.levels[k].(isLoading := loading)]) else s
  }

  /** `setCommonAssetsLoadedState(loaded)`. */
  function SetCommonLoaded(s: Store, loaded: bool): (r: Store)
    ensures r.common.isLoaded == loaded && r.common.isLoading == s.common.isLoading
    ensures r.common.buckets == s.common.buckets && r.levels == s.levels
  {
    s.(common := s.common.(isLoaded := loaded))
  }

  /** `setCommonAssetsLoadingState(loading)`. */
  function SetCommonLoading(s: Store, loading: bool): (r: Store)
    ensures r.common.isLoading == loading && r.common.isLoaded == s.common.isLoaded
    ensures r.common.buckets == s.common.buckets && r.levels == s.levels
  {
    s.(common := s.common.(isLoading := loading))
  }

  /** `getLevelAssetsLoadedState(level)`, read as a truth value. */
  predicate LevelLoaded(s: Store, level: Option<string>) {
    Truthy(level) && level.value in s.levels && s.levels[level.value].isLoaded
  }

  predicate LevelLoading(s: Store, level: Option<string>) {
    Truthy(level) && level.value in s.levels && s.levels[level.value].isLoading
  }

  /** `getAsssetsLoadedState(level)` and `getAssetsLoadingstate(level)`. */
  predicate Loaded(s: Store, level: Option<string>)
    ensures !Truthy(level) ==> (Loaded(s, level) <==> s.common.isLoaded)
    ensures Truthy(level) ==> (Loaded(s, level) <==> level.value in s.levels && s.levels[level.value].isLoaded)
  {
    if Truthy(level) then LevelLoaded(s, level) else s.common.isLoaded
  }

  predicate Loading(s: Store, level: Option<string>)
    ensures !Truthy(level) ==> (Loading(s, level) <==> s.common.isLoading)
    ensures Truthy(level) ==> (Loading(s, level) <==> level.value in s.levels && s.levels[level.value].isLoading)
  {
    if Truthy(level) then LevelLoading(s, level) else s.common.isLoading
  }

  /** The level flag setters write only the named level's flag (nothing at
      all for an unknown level), and the getters read back what was set;
      for an unknown level the getters are false. */
  lemma LevelFlagsRoundTrip(s: Store, b: bool, level: Option<string>)
    ensures LevelKey(level) !in s.levels ==>
      SetLevelLoaded(s, b, level) == s && SetLevelLoading(s, b, level) == s
    ensures Truthy(level) && level.value !in s.levels ==>
      !LevelLoaded(s, level) && !LevelLoading(s, level)
    ensures Truthy(level) && level.value in s.levels ==>
      && LevelLoaded(SetLevelLoaded(s, b, level), level) == b
      && LevelLoading(SetLevelLoading(s, b, level), level) == b
      && LevelLoading(SetLevelLoaded(s, b, level), level) == LevelLoading(s, level)
      && LevelLoaded(SetLevelLoading(s, b, level), level) == LevelLoaded(s, level)
    ensures forall other :: other in s.levels && other != LevelKey(level) ==>
      SetLevelLoaded(s, b, level).levels[other] == s.levels[other]
      && SetLevelLoading(s, b, level).levels[other] == s.levels[other]
    ensures SetLevelLoaded(s, b, level).common == s.common && SetLevelLoading(s, b, level).common == s.common
  {
  }

  /** `postAssetsLoad(level)()`: marks a known level loaded, and always marks
      the common group loaded, even for a level load. */
  function PostAssetsLoad(s: Store, level: Option<string>): (r: Store)
    ensures r.common.isLoaded && r.common.buckets == s.common.buckets
    ensures r.common.isLoading == s.common.isLoading
    ensures r.levels.Keys == s.levels.Keys
    ensures forall l :: l in s.levels ==>
      r.levels[l] == if Truthy(level) && l == level.value then s.levels[l].(isLoaded := true) else s.levels[l]
  {
    var s1 := if Truthy(level) then SetLevelLoaded(s, true, level) else s;
    SetCommonLoaded(s1, true)
  }

  /** `preAssetsLoad(level)()`: marks the level (or, without a level, the
      common group) as loading. */
  function PreAssetsLoad(s: Store, level: Option<string>): (r: Store)
    ensures r.common.isLoaded == s.common.isLoaded && r.common.buckets == s.common.buckets
    ensures r.common.isLoading == (s.common.isLoading || !Truthy(level))
    ensures r.levels.Keys == s.levels.Keys
    ensures forall l :: l in s.levels ==>
      r.levels[l] == if Truthy(level) && l == level.value then s.levels[l].(isLoading := true) else s.levels[l]
  {
    if Truthy(level) then SetLevelLoading(s, true, level) else SetCommonLoading(s, true)
  }

  /** The guard of `load`: nothing happens when the scope is loaded or
      loading. */
  predicate ShouldLoad(s: Store, level: Option<string>) {
    !Loaded(s, level) && !Loading(s, level)
  }

  /** The store while a `load(level)` that passed its guard is in flight,
      with the thunk `preAssetsLoad(level)` returns invoked: the scope is
      marked loading. (As written the thunk is dropped, and the store in
      flight is the store before the call.) */
  function InFlight(s: Store, level: Option<string>): Store {
    PreAssetsLoad(s, level)
  }

  /** With the loading flag set, the guard refuses a second load of the
      common scope or of a known level. An unknown level has no flag to
      set. */
  lemma InFlightBlocksSecondLoad(s: Store, level: Option<string>)
    requires ShouldLoad(s, level)
    requires Truthy(level) ==> level.value in s.levels
    ensures Loading(InFlight(s, level), level)
    ensures !ShouldLoad(InFlight(s, level), level)
  {
  }

  /** The sub-loads `load` fans out to besides the models: audio, video,
      images (with textures and cube textures), and scripts. */
  datatype SubLoads = SubLoads(audio: Settlement, video: Settlement, images: Settlement, scripts: Settlement)

  /** The settlements of the sub-loads other than the models'. */
  function Others(o: SubLoads): seq<Settlement> {
    [o.audio, o.video, o.images, o.scripts]
  }

  /** `Promise.all([...])` over the five sub-loads, in source order. */
  function Joined(others: SubLoads, models: Settlement): Settlement {
    All([others.audio, others.video, others.images, models, others.scripts])
  }

  /** Did every sub-load other than the models' resolve? */
  predicate OthersResolved(o: SubLoads) {
    o == SubLoads(Fulfilled, Fulfilled, Fulfilled, Fulfilled)
  }

  /** Does one of the model loads of the scope's bucket never settle? */
  ghost predicate ModelsStall(s: Store, env: Models.Env, level: Option<string>)
    requires WellFormed(s)
  {
    Models.AnyStalled(Models.Outcomes(env, BucketOf(s, "models", level), level), BucketOf(s, "models", level).Keys)
  }

  /** How the joined load ends when the models' load does not reject: it
      rejects exactly when another sub-load rejects, is pending exactly when
      none rejects and one of the five (the models' included) is pending,
      and resolves exactly when all resolve. */
  lemma JoinedOutcome(others: SubLoads, models: Settlement)
    requires models != Rejected
    ensures Joined(others, models) == Rejected <==> Rejected in Others(others)
    ensures Joined(others, models) == Pending <==>
      Rejected !in Others(others) && (Pending in Others(others) || models == Pending)
    ensures Joined(others, models) == Fulfilled <==> OthersResolved(others) && models == Fulfilled
  {
    var ps := [others.audio, others.video, others.images, models, others.scripts];
    assert Rejected in Others(others) ==> Rejected in ps;
    assert Rejected !in Others(others) ==> Rejected !in ps;
    assert Pending in Others(others) || models == Pending ==> Pending in ps;
    assert Pending in ps ==> Pending in Others(others) || models == Pending;
    assert (forall i :: 0 <= i < |ps| ==> ps[i] == Fulfilled) <==> OthersResolved(others) && models == Fulfilled by {
      if forall i :: 0 <= i < |ps| ==> ps[i] == Fulfilled {
        assert ps[0] == Fulfilled && ps[1] == Fulfilled && ps[2] == Fulfilled && ps[3] == Fulfilled && ps[4] == Fulfilled;
      }
    }
  }

  /** `.then(postAssetsLoad(level))`: the flags change only when every
      sub-load resolved. */
  function Finish(s: Store, level: Option<string>, joined: Settlement): Store {
    if joined == Fulfilled then PostAssetsLoad(s, level) else s
  }

  /** `load(level)` as written. It returns at once when the scope is loaded or
      loading; otherwise it loads every bucket of the scope, marks the scope
      (and always the common group) loaded once all resolved, and resolves
      even when a sub-load rejected (the error is logged). It never sets a
      loading flag: the thunk `preAssetsLoad(level)` returns is dropped. */
  method Load(s: Store, cache: Models.State, env: Models.Env, level: Option<string>, others: SubLoads)
    returns (r: Store, cache': Models.State, settled: Settlement, fannedOut: bool)
    requires WellFormed(s)
    ensures WellFormed(r)
    ensures fannedOut <==> ShouldLoad(s, level)
    ensures !fannedOut ==> r == s && cache' == cache && settled == Fulfilled
    ensures settled != Rejected
    ensures fannedOut ==> Models.CacheAfter(cache.cache, cache'.cache,
      Models.Outcomes(env, BucketOf(s, "models", level), level), BucketOf(s, "models", level).Keys)
    ensures r.common.isLoading == s.common.isLoading
    ensures forall l :: l in s.levels ==> l in r.levels && r.levels[l].isLoading == s.levels[l].isLoading
    ensures settled == Pending ==> r == s
    ensures (fannedOut && Rejected in Others(others)) ==> settled == Fulfilled
    ensures (fannedOut && Rejected !in Others(others) && Pending in Others(others)) ==> settled == Pending
    ensures (fannedOut && Rejected !in Others(others) && ModelsStall(s, env, level)) ==> settled == Pending
    ensures cache'.currentLevel == cache.currentLevel
    ensures fannedOut ==> cache'.models == BucketOf(s, "models", level)
    ensures r != s ==>
      (fannedOut && OthersResolved(others) && !ModelsStall(s, env, level))
    ensures r != s ==> r == PostAssetsLoad(s, level)
    ensures r != s ==>
      (r.common.isLoaded && (Truthy(level) && level.value in s.levels ==> r.levels[level.value].isLoaded))
    ensures (fannedOut && OthersResolved(others) && !ModelsStall(s, env, level))
      ==> (settled == Fulfilled && r.common.isLoaded && (Loaded(r, level) <==> (Truthy(level) ==> level.value in s.levels)))
  {
    if !ShouldLoad(s, level) {
      return s, cache, Fulfilled, false;
    }
    var modelsSettled;
    cache', modelsSettled := Models.LoadModels(cache, env, BucketOf(s, "models", level), level);
    LoadOutcome(s, level, others, modelsSettled, ModelsStall(s, env, level));
    var joined := Joined(others, modelsSettled);
    r := Finish(s, level, joined);
    settled := Caught(joined);
    fannedOut := true;
  }

  /** The flags and the settlement `load` ends with, given how the models'
      load ends (`stall`: one of its loads never settles). */
  lemma LoadOutcome(s: Store, level: Option<string>, others: SubLoads, models: Settlement, stall: bool)
    requires WellFormed(s) && models != Rejected && (models == Pending <==> stall)
    ensures var joined := Joined(others, models);
      var r := Finish(s, level, joined);
      var settled := Caught(joined);
      && WellFormed(r) && settled != Rejected
      && r.common.isLoading == s.common.isLoading
      && (forall l :: l in s.levels ==> l in r.levels && r.levels[l].isLoading == s.levels[l].isLoading)
      && (settled == Pending ==> r == s)
      && (Rejected in Others(others) ==> settled == Fulfilled)
      && (Rejected !in Others(others) && Pending in Others(others) ==> settled == Pending)
      && (Rejected !in Others(others) && stall ==> settled == Pending)
      && (r != s ==> OthersResolved(others) && !stall && r == PostAssetsLoad(s, level))
      && (r != s ==> r.common.isLoaded && (Truthy(level) && level.value in s.levels ==> r.levels[level.value].isLoaded))
      && (OthersResolved(others) && !stall ==>
            settled == Fulfilled && r.common.isLoaded && (Loaded(r, level) <==> (Truthy(level) ==> level.value in s.levels)))
  {
    JoinedOutcome(others, models);
    FinishFlags(s, level, Joined(others, models));
  }

  /** Finishing a load never touches a loading flag; it changes the store
      only on success, and then marks the common group and a known level
      loaded. */
  lemma FinishFlags(s: Store, level: Option<string>, joined: Settlement)
    ensures var r := Finish(s, level, joined);
      && r.common.isLoading == s.common.isLoading
      && (forall l :: l in s.levels ==> l in r.levels && r.levels[l].isLoading == s.levels[l].isLoading)
      && (joined != Fulfilled ==> r == s)
      && (joined == Fulfilled ==> r.common.isLoaded && (Loaded(r, level) <==> (Truthy(level) ==> level.value in s.levels)))
      && (r != s ==> r.common.isLoaded && (Truthy(level) && level.value in s.levels ==> r.levels[level.value].isLoaded))
  {
  }

  /** As written, a second `load(level)` issued while the first is still in
      flight (a sub-load pending, the models' included, none rejected) fans
      out again, because the first left every flag as it was. */
  method OverlappingLoadsBothFanOutAsWritten(s: Store, cache: Models.State, env: Models.Env, level: Option<string>, others: SubLoads)
    returns (first: bool, second: bool)
    requires WellFormed(s) && ShouldLoad(s, level)
    requires Rejected !in Others(others) && (Pending in Others(others) || ModelsStall(s, env, level))
    ensures first && second
  {
    var r, cache', settled, fanned := Load(s, cache, env, level, others);
    var r2, cache2, settled2, fanned2 := Load(r, cache', env, level, others);
    first, second := fanned, fanned2;
  }

  /** `setLevelAssetsLoadingState(false, level)`, or for the common scope
      `setCommonAssetsLoadingState(false)`. */
  function EndLoading(s: Store, level: Option<string>): Store {
    if Truthy(level) then SetLevelLoading(s, false, level) else SetCommonLoading(s, false)
  }

  /** The corrected completion: once the sub-loads settle, the outcome is
      applied as `.then(postAssetsLoad(level))` does and the loading flag is
      cleared; while they are pending the scope stays marked loading. */
  function FinishCorrected(s: Store, level: Option<string>, joined: Settlement): Store {
    if joined == Pending then s else EndLoading(Finish(s, level, joined), level)
  }

  /** The corrected completion keeps the loading flag while pending, clears
      it once settled, and sets loaded flags only on success. */
  lemma FinishCorrectedFlags(s: Store, level: Option<string>, joined: Settlement)
    ensures var r := FinishCorrected(s, level, joined);
      && (joined == Pending ==> r == s)
      && (joined != Pending ==> !Loading(r, level))
      && (joined != Fulfilled ==> r.common.isLoaded == s.common.isLoaded && Loaded(r, level) == Loaded(s, level))
      && (joined == Fulfilled ==> r.common.isLoaded && (Loaded(r, level) <==> (Truthy(level) ==> level.value in s.levels)))
      && (WellFormed(s) ==> WellFormed(r))
  {
  }

  /** `load(level)` with the loading thunk invoked and the flag cleared once
      the load settles: the scope is marked loading while the sub-loads are
      in flight, and a load that settled without success can be retried. */
  method LoadCorrected(s: Store, cache: Models.State, env: Models.Env, level: Option<string>, others: SubLoads)
    returns (r: Store, cache': Models.State, settled: Settlement, fannedOut: bool)
    requires WellFormed(s)
    ensures WellFormed(r)
    ensures fannedOut <==> ShouldLoad(s, level)
    ensures !fannedOut ==> r == s && cache' == cache && settled == Fulfilled
    ensures settled != Rejected
    ensures fannedOut ==> Models.CacheAfter(cache.cache, cache'.cache,
      Models.Outcomes(env, BucketOf(s, "models", level), level), BucketOf(s, "models", level).Keys)
    ensures (fannedOut && Rejected in Others(others)) ==> settled == Fulfilled
    ensures (fannedOut && Rejected !in Others(others) && Pending in Others(others)) ==> settled == Pending
    ensures (fannedOut && Rejected !in Others(others) && ModelsStall(s, env, level)) ==> settled == Pending
    ensures cache'.currentLevel == cache.currentLevel
    ensures fannedOut ==> cache'.models == BucketOf(s, "models", level)
    ensures (fannedOut && settled == Pending && (Truthy(level) ==> level.value in s.levels)) ==> Loading(r, level)
    ensures (fannedOut && settled != Pending) ==> !Loading(r, level)
    ensures (fannedOut && settled == Pending) ==> r == PreAssetsLoad(s, level)
    ensures r.levels.Keys == s.levels.Keys && r.common.buckets == s.common.buckets
    ensures forall l :: l in s.levels && !(Truthy(level) && l == level.value) ==> r.levels[l] == s.levels[l]
    ensures Truthy(level) ==> r.common.isLoading == s.common.isLoading
    ensures Truthy(level) && level.value in s.levels ==> r.levels[level.value].buckets == s.levels[level.value].buckets
    ensures !(OthersResolved(others) && !ModelsStall(s, env, level))
      ==> (r.common.isLoaded == s.common.isLoaded && Loaded(r, level) == Loaded(s, level))
    ensures (fannedOut && OthersResolved(others) && !ModelsStall(s, env, level))
      ==> (settled == Fulfilled && r.common.isLoaded && (Loaded(r, level) <==> (Truthy(level) ==> level.value in s.levels)))
  {
    if !ShouldLoad(s, level) {
      return s, cache, Fulfilled, false;
    }
    var modelsSettled;
    // the loading flag changes no bucket, so this is `this.models(level)`
    cache', modelsSettled := Models.LoadModels(cache, env, BucketOf(s, "models", level), level);
    LoadCorrectedOutcome(s, level, others, modelsSettled, ModelsStall(s, env, level));
    var joined := Joined(others, modelsSettled);
    LoadCorrectedFrame(s, level, joined);
    r := FinishCorrected(InFlight(s, level), level, joined);
    settled := Caught(joined);
    fannedOut := true;
  }

  /** The flags and the settlement the corrected `load` ends with, given
      how the models' load ends. */
  lemma LoadCorrectedOutcome(s: Store, level: Option<string>, others: SubLoads, models: Settlement, stall: bool)
    requires WellFormed(s) && ShouldLoad(s, level)
    requires models != Rejected && (models == Pending <==> stall)
    ensures var joined := Joined(others, models);
      var r := FinishCorrected(InFlight(s, level), level, joined);
      var settled := Caught(joined);
      && WellFormed(r) && settled != Rejected
      && (Rejected in Others(others) ==> settled == Fulfilled)
      && (Rejected !in Others(others) && Pending in Others(others) ==> settled == Pending)
      && (Rejected !in Others(others) && stall ==> settled == Pending)
      && (settled == Pending && (Truthy(level) ==> level.value in s.levels) ==> Loading(r, level))
      && (settled != Pending ==> !Loading(r, level))
      && (!(OthersResolved(others) && !stall) ==> r.common.isLoaded == s.common.isLoaded && Loaded(r, level) == Loaded(s, level))
      && (OthersResolved(others) && !stall ==>
            settled == Fulfilled && r.common.isLoaded && (Loaded(r, level) <==> (Truthy(level) ==> level.value in s.levels)))
  {
    var joined := Joined(others, models);
    JoinedOutcome(others, models);
    InFlightFlags(s, level);
    FinishCorrectedFlags(InFlight(s, level), level, joined);
  }

  /** The corrected load touches only the flags of its own scope and the
      common loaded flag: every bucket and every other level stay as they
      were, and while pending the store is the one in flight. */
  lemma LoadCorrectedFrame(s: Store, level: Option<string>, joined: Settlement)
    ensures var r := FinishCorrected(InFlight(s, level), level, joined);
      && (joined == Pending ==> r == PreAssetsLoad(s, level))
      && r.levels.Keys == s.levels.Keys && r.common.buckets == s.common.buckets
      && (forall l :: l in s.levels && !(Truthy(level) && l == level.value) ==> r.levels[l] == s.levels[l])
      && (Truthy(level) ==> r.common.isLoading == s.common.isLoading)
      && (Truthy(level) && level.value in s.levels ==> r.levels[level.value].buckets == s.levels[level.value].buckets)
  {
    var f := InFlight(s, level);
    FinishCorrectedFrame(f, level, joined);
  }

  /** The corrected completion changes no bucket, no other level, and with
      a level not the common loading flag. */
  lemma FinishCorrectedFrame(s: Store, level: Option<string>, joined: Settlement)
    ensures var r := FinishCorrected(s, level, joined);
      && r.levels.Keys == s.levels.Keys && r.common.buckets == s.common.buckets
      && (forall l :: l in s.levels && !(Truthy(level) && l == level.value) ==> r.levels[l] == s.levels[l])
      && (Truthy(level) ==> r.common.isLoading == s.common.isLoading)
      && (Truthy(level) && level.value in s.levels ==> r.levels[level.value].buckets == s.levels[level.value].buckets)
  {
  }

  /** The store in flight keeps every bucket and loaded flag, and marks the
      common scope or a known level loading. */
  lemma InFlightFlags(s: Store, level: Option<string>)
    requires WellFormed(s)
    ensures var f := InFlight(s, level);
      && WellFormed(f) && f.common.isLoaded == s.common.isLoaded && Loaded(f, level) == Loaded(s, level)
      && ((Truthy(level) ==> level.value in s.levels) ==> Loading(f, level))
  {
    var f := InFlight(s, level);
    if Truthy(level) && level.value in s.levels {
      var k := level.value;
      assert f.levels == s.levels[k := s.levels[k].(isLoading := true)];
      assert Seeded(f.levels[k]);
    }
  }

  /** With the corrected load, a second `load(level)` issued while the first
      is still in flight short-circuits (for the common scope and every known
      level). */
  method OverlappingLoadsDeduplicated(s: Store, cache: Models.State, env: Models.Env, level: Option<string>, others: SubLoads)
    returns (first: bool, second: bool)
    requires WellFormed(s) && ShouldLoad(s, level)
    requires Truthy(level) ==> level.value in s.levels
    requires Rejected !in Others(others) && (Pending in Others(others) || ModelsStall(s, env, level))
    ensures first && !second
  {
    var r, cache', settled, fanned := LoadCorrected(s, cache, env, level, others);
    var r2, cache2, settled2, fanned2 := LoadCorrected(r, cache', env, level, others);
    first, second := fanned, fanned2;
  }

  /** With the corrected load, a load that settled after a sub-load rejected
      leaves the scope neither loaded nor loading, so the next `load(level)`
      fans out again, as it does as written. */
  method RejectedLoadIsRetried(s: Store, cache: Models.State, env: Models.Env, level: Option<string>, others: SubLoads)
    returns (first: bool, second: bool)
    requires WellFormed(s) && ShouldLoad(s, level)
    requires Rejected in Others(others)
    ensures first && second
  {
    var r, cache', settled, fanned := LoadCorrected(s, cache, env, level, others);
    var r2, cache2, settled2, fanned2 := LoadCorrected(r, cache', env, level, others);
    first, second := fanned, fanned2;
  }

  /** A load of a level the manifest does not name always passes the guard,
      finds only empty buckets, and on success marks the common group loaded,
      so a later `load()` of the common scope does nothing. */
  lemma UnknownLevelLoadMarksCommon(s: Store, level: Option<string>)
    requires WellFormed(s) && Truthy(level) && level.value !in s.levels
    ensures ShouldLoad(s, level)
    ensures forall t :: t in AssetTypes ==> BucketOf(s, t, level) == map[]
    ensures ShouldLoad(Finish(s, level, Fulfilled), level)
    ensures !ShouldLoad(Finish(s, level, Fulfilled), None)
  {
  }

  /** After a successful load the scope is loaded, so every later load of it
      short-circuits; a failed or pending one leaves the store as it was. */
  lemma LoadedScopeShortCircuits(s: Store, level: Option<string>, joined: Settlement)
    requires !Truthy(level) || level.value in s.levels
    ensures joined == Fulfilled ==> !ShouldLoad(Finish(s, level, joined), level)
    ensures joined != Fulfilled ==> Finish(s, level, joined) == s
  {
  }

  /** What `toJSON` emits per key: a bucket (common types) or a level group
      without its flags. */
  datatype Json = BucketJson(paths: Bucket) | GroupJson(buckets: map<string, Bucket>)

  /** `toJSON()`: the common buckets and the level groups side by side in one
      object, every loading flag dropped. */
  function ToJson(s: Store): (j: map<string, Json>)
    ensures j.Keys == s.common.buckets.Keys + s.levels.Keys
    ensures forall l :: l in s.levels ==> j[l] == GroupJson(LevelAssets(s, l).buckets)
    ensures forall t :: t in s.common.buckets && t !in s.levels ==> j[t] == BucketJson(s.common.buckets[t])
  {
    (map t | t in s.common.buckets :: BucketJson(s.common.buckets[t]))
      + (map l | l in s.levels :: GroupJson(LevelAssets(s, l).buckets))
  }

  /** The JSON value read back as a manifest value. */
  function ToRaw(j: Json): RawValue {
    match j
    case BucketJson(p) => Paths(p)
    case GroupJson(b) => Overrides(b, None, None)
  }

  /** `m` lists the entries of `j`, each key once, in some order. */
  predicate Lists(m: Manifest, j: map<string, Json>) {
    && (forall i :: 0 <= i < |m| ==> m[i].0 in j && m[i].1 == ToRaw(j[m[i].0]))
    && (forall i, k :: 0 <= i < k < |m| ==> m[i].0 != m[k].0)
    && j.Keys == set i | 0 <= i < |m| :: m[i].0
  }

  /** A store as `parseAssets` builds it: the nine common buckets, and level
      groups under lower-case level names that are not type names. */
  predicate Canonical(isLevelName: string -> bool, s: Store) {
    && s.common.buckets.Keys == AssetTypes
    && forall l :: l in s.levels ==>
         IsLower(l) && isLevelName(l) && l !in AssetTypes && Seeded(s.levels[l])
  }

  /** The store with every flag cleared. */
  function Unflagged(s: Store): Store {
    Store(Group(s.common.buckets, false, false),
          map l | l in s.levels :: Group(s.levels[l].buckets, false, false))
  }

  /** Exporting a store with `toJSON` and parsing the export gives back every
      bucket of every group, with the flags reset. */
  lemma ToJsonRoundTrip(isLevelName: string -> bool, s: Store, m: Manifest)
    requires Canonical(isLevelName, s)
    requires Lists(m, ToJson(s))
    ensures ParseAssets(isLevelName, m) == Unflagged(s)
  {
    var j := ToJson(s);
    var p := ParseAssets(isLevelName, m);
    ParseAssetsMeaning(isLevelName, m);
    ListedKeysAreLower(isLevelName, s, m, j);
    RoundTripCommon(s, m, j, p);
    RoundTripLevels(isLevelName, s, m, j, p);
    UnflaggedCopy(p, s);
  }

  /** What ToJson promises about its output, as a fact about `j`. */
  predicate Exported(s: Store, j: map<string, Json>) {
    && j.Keys == s.common.buckets.Keys + s.levels.Keys
    && (forall l :: l in s.levels ==> j[l] == GroupJson(s.levels[l].buckets))
    && (forall t :: t in s.common.buckets && t !in s.levels ==> j[t] == BucketJson(s.common.buckets[t]))
  }

  /** A store with the buckets of `s`, no flags set, is `Unflagged(s)`. */
  lemma UnflaggedCopy(p: Store, s: Store)
    requires p.common.buckets == s.common.buckets
    requires !p.common.isLoaded && !p.common.isLoading
    requires forall l :: l in p.levels <==> l in s.levels
    requires forall l :: l in s.levels ==> p.levels[l] == Group(s.levels[l].buckets, false, false)
    ensures p == Unflagged(s)
  {
    assert p.levels == Unflagged(s).levels;
  }

  lemma ListedKeysAreLower(isLevelName: string -> bool, s: Store, m: Manifest, j: map<string, Json>)
    requires Canonical(isLevelName, s)
    requires Exported(s, j) && Lists(m, j)
    ensures forall i :: 0 <= i < |m| ==> IsLower(m[i].0)
    ensures forall x, y :: 0 <= x < y < |m| ==> m[x].0 != m[y].0
  {
    TypeNamesAreLower();
    forall i | 0 <= i < |m| ensures IsLower(m[i].0) {
      assert m[i].0 in j;
    }
  }

  /** The parsed common group is the exported one. */
  lemma RoundTripCommon(s: Store, m: Manifest, j: map<string, Json>, p: Store)
    requires s.common.buckets.Keys == AssetTypes && forall l :: l in s.levels ==> l !in AssetTypes
    requires Exported(s, j) && Lists(m, j)
    requires forall i :: 0 <= i < |m| ==> IsLower(m[i].0)
    requires forall x, y :: 0 <= x < y < |m| ==> m[x].0 != m[y].0
    requires CommonFrom(p, m)
    ensures p.common.buckets == s.common.buckets
  {
    forall t | t in AssetTypes ensures p.common.buckets[t] == s.common.buckets[t] {
      var i := IndexOfListedKey(m, j, t);
      LastValueOfListedKey(m, t, i);
    }
  }

  /** The parsed levels are the exported ones, without flags. */
  lemma RoundTripLevels(isLevelName: string -> bool, s: Store, m: Manifest, j: map<string, Json>, p: Store)
    requires Canonical(isLevelName, s)
    requires Exported(s, j) && Lists(m, j)
    requires forall i :: 0 <= i < |m| ==> IsLower(m[i].0)
    requires forall x, y :: 0 <= x < y < |m| ==> m[x].0 != m[y].0
    requires LevelsFrom(isLevelName, p.levels, m)
    ensures forall l :: l in p.levels <==> l in s.levels
    ensures forall l :: l in s.levels ==> p.levels[l] == Group(s.levels[l].buckets, false, false)
  {
    ExportedLevelsParse(isLevelName, s, m, j, p);
    ParsedLevelsAreExported(isLevelName, s, m, j, p);
  }

  lemma ExportedLevelsParse(isLevelName: string -> bool, s: Store, m: Manifest, j: map<string, Json>, p: Store)
    requires Canonical(isLevelName, s)
    requires Exported(s, j) && Lists(m, j)
    requires forall i :: 0 <= i < |m| ==> IsLower(m[i].0)
    requires forall x, y :: 0 <= x < y < |m| ==> m[x].0 != m[y].0
    requires LevelsFrom(isLevelName, p.levels, m)
    ensures forall l :: l in s.levels ==> l in p.levels && p.levels[l] == Group(s.levels[l].buckets, false, false)
  {
    forall l | l in s.levels ensures l in p.levels && p.levels[l] == Group(s.levels[l].buckets, false, false) {
      var i := IndexOfListedKey(m, j, l);
      RoundTripLevel(isLevelName, m, l, s.levels[l].buckets, i, p);
    }
  }

  lemma ParsedLevelsAreExported(isLevelName: string -> bool, s: Store, m: Manifest, j: map<string, Json>, p: Store)
    requires s.common.buckets.Keys == AssetTypes
    requires Exported(s, j) && Lists(m, j)
    requires forall i :: 0 <= i < |m| ==> IsLower(m[i].0)
    requires LevelsFrom(isLevelName, p.levels, m)
    ensures forall l :: l in p.levels ==> l in s.levels
  {
    forall l | l in p.levels ensures l in s.levels {
      var i := ParsedLevelIsListed(isLevelName, m, l, p);
      assert m[i].0 in j;
    }
  }

  /** Every parsed level comes from a key of the manifest. */
  lemma ParsedLevelIsListed(isLevelName: string -> bool, m: Manifest, l: string, p: Store) returns (i: int)
    requires forall x :: 0 <= x < |m| ==> IsLower(m[x].0)
    requires LevelsFrom(isLevelName, p.levels, m) && l in p.levels
    ensures 0 <= i < |m| && m[i].0 == l && l !in AssetTypes
  {
    if forall x :: 0 <= x < |m| ==> m[x].0 != l {
      LastValueOfUnlistedKey(m, l);
      assert false;
    }
    i :| 0 <= i < |m| && m[i].0 == l;
  }

  /** A level listed once, with every bucket, parses back to its buckets. */
  lemma RoundTripLevel(isLevelName: string -> bool, m: Manifest, l: string, b: map<string, Bucket>, i: int, p: Store)
    requires forall x :: 0 <= x < |m| ==> IsLower(m[x].0)
    requires forall x, y :: 0 <= x < y < |m| ==> m[x].0 != m[y].0
    requires 0 <= i < |m| && m[i] == (l, Overrides(b, None, None))
    requires isLevelName(l) && l !in AssetTypes && AssetTypes <= b.Keys
    requires LevelsFrom(isLevelName, p.levels, m)
    ensures l in p.levels && p.levels[l] == Group(b, false, false)
  {
    LastValueOfListedKey(m, l, i);
    OverlayOnDefaults(b);
  }

  /** A level value that names every type replaces all default buckets. */
  lemma OverlayOnDefaults(b: map<string, Bucket>)
    requires AssetTypes <= b.Keys
    ensures Overlay(DefaultGroup, Overrides(b, None, None)) == Group(b, false, false)
  {
    assert DefaultGroup.buckets + b == b;
  }

  /** The position of a key in a manifest that lists a JSON object. */
  lemma IndexOfListedKey(m: Manifest, j: map<string, Json>, k: string) returns (i: int)
    requires Lists(m, j) && k in j
    ensures 0 <= i < |m| && m[i].0 == k && m[i].1 == ToRaw(j[k])
  {
    assert k in set x | 0 <= x < |m| :: m[x].0;
    i :| 0 <= i < |m| && m[i].0 == k;
  }

  lemma TypeNamesAreLower()
    ensures forall t :: t in AssetTypes ==> IsLower(t)
  {
    assert IsLower("audio") && IsLower("video") && IsLower("images") && IsLower("textures");
    assert IsLower("cubetextures") && IsLower("models") && IsLower("particles");
    assert IsLower("scripts") && IsLower("shaders");
  }

  /** With lower-case, pairwise distinct keys, the last value for a listed
      key is its only value. */
  lemma {:induction false} LastValueOfListedKey(m: Manifest, k: string, i: int)
    requires forall x :: 0 <= x < |m| ==> IsLower(m[x].0)
    requires forall x, y :: 0 <= x < y < |m| ==> m[x].0 != m[y].0
    requires 0 <= i < |m| && m[i].0 == k
    ensures LastValue(m, k) == Some(m[i].1)
    decreases |m|
  {
    var last := |m| - 1;
    LowerIsLower(m[last].0);
    if i < last {
      LastValueOfListedKey(m[..last], k, i);
    }
  }

  lemma {:induction false} LastValueOfUnlistedKey(m: Manifest, k: string)
    requires forall x :: 0 <= x < |m| ==> IsLower(m[x].0) && m[x].0 != k
    ensures LastValue(m, k) == None
    decreases |m|
  {
    if |m| > 0 {
      LowerIsLower(m[|m| - 1].0);
      LastValueOfUnlistedKey(m[..|m| - 1], k);
    }
  }
}

/** The model cache: per-asset loads that parse and store a record under
    `buildAssetId(name, level)`, the bucket-wide `loadModels`, and `create`,
    which turns a cached record into an element holding a fresh clone. */
module Models {

  import opened Values
  import opened SceneTree
  import opened Promises
  import opened Formats

  /** The collaborators this module calls but does not define: the asset-id
      builder, the URL parser, and the loaders' network fetch. A fetch that
      fails yields `None` (its error callback is a no-op). */
  datatype Env = Env(
    assetId: (string, Option<string>) -> string,
    parseUrl: string -> Option<Url>,
    fetchGltf: (Options, string) -> Option<GltfFile>,
    fetchObject: (LoaderKind, Options, string) -> Option<Node>)

  /** A cached model: the parsed record with its extension attached. */
  datatype Record = Record(scene: Option<Node>, animations: Option<seq<Clip>>, extension: string)

  /** `map` is the cache, `models` the bucket last handed to `loadModels`. */
  datatype State = State(cache: map<string, Record>, models: map<string, string>, currentLevel: Option<string>)

  /** `storeModel(name, model, extension)`: tags the record with its
      extension and writes it under `name`, replacing any earlier entry. */
  function StoreModel(s: State, name: string, parsed: Parsed, extension: string): (r: State)
    ensures r.cache.Keys == s.cache.Keys + {name}
    ensures r.cache[name].scene == parsed.scene && r.cache[name].animations == parsed.animations
    ensures r.cache[name].extension == extension
    ensures forall k :: k in s.cache && k != name ==> r.cache[k] == s.cache[k]
    ensures r.models == s.models && r.currentLevel == s.currentLevel
  {
    s.(cache := s.cache[name := Record(parsed.scene, parsed.animations, extension)])
  }

  /** The effect of one asset load, once everything it waits for happened. */
  datatype AssetLoad =
    | Skipped                          // no path for the name: resolved at once
    | Stored(id: string, record: Record) // parsed and written to the cache
    | Stalled                          // fetch failed or parser threw: never settles

  /** Fetches `path` with the loader `loader` selects, as the loader's
      `onLoad` callback would see it. */
  function Fetch(env: Env, loader: Loader, path: string): Option<Loaded> {
    if loader.kind == GltfLoader then
      match env.fetchGltf(loader.options, path)
      case Some(file) => Some(FromGltf(file))
      case None => None
    else
      match env.fetchObject(loader.kind, loader.options, path)
      case Some(root) => Some(FromObject(root))
      case None => None
  }

  /** `loadAssetByPath`: picks loader and parser from the path's extension,
      and on load stores the parse under `buildAssetId(name, level)`. A
      parse is an object, hence truthy, so every parse that does not throw
      is stored. */
  function LoadAssetByPath(env: Env, path: string, name: string, options: Options): (r: AssetLoad)
    ensures r != Skipped
    ensures var extension := ExtractExtension(path, env.parseUrl(path));
      var fetched := Fetch(env, GetLoaderFromExtension(extension, options), path);
      && (fetched.None? ==> r == Stalled)
      && (fetched.Some? ==> (r.Stored? <==> Parse(ParserFor(extension), fetched.value).Some?))
      && (r.Stored? ==> var parsed := Parse(ParserFor(extension), fetched.value).value;
            r.record == Record(parsed.scene, parsed.animations, extension))
    ensures r.Stored? ==> r.id == env.assetId(name, options.level)
    ensures r.Stored? ==> r.record.extension == ExtractExtension(path, env.parseUrl(path))
    ensures r.Stored? ==> ParserFor(r.record.extension) != ColladaParser
  {
    var extension := ExtractExtension(path, env.parseUrl(path));
    var loader := GetLoaderFromExtension(extension, options);
    var parser := ParserFor(extension);
    match Fetch(env, loader, path)
    case None => Stalled
    case Some(loaded) =>
      match Parse(parser, loaded)
      case None => Stalled
      case Some(parsed) =>
        Stored(env.assetId(name, options.level), Record(parsed.scene, parsed.animations, extension))
  }

  /** Is `models[name]` truthy? A missing name and an empty path are not. */
  predicate HasPath(models: map<string, string>, name: string) {
    name in models && models[name] != ""
  }

  /** `loadAssetByName`: looks the name up in the current bucket
      (`this.models`); without a path it resolves at once and touches
      nothing. */
  function LoadAssetByName(models: map<string, string>, env: Env, name: string, options: Options): (r: AssetLoad)
    ensures r == Skipped <==> !HasPath(models, name)
    ensures HasPath(models, name) ==> r == LoadAssetByPath(env, models[name], name, options)
    ensures r.Stored? ==> r.id == env.assetId(name, options.level)
  {
    if !HasPath(models, name) then Skipped
    else LoadAssetByPath(env, models[name], name, options)
  }

  /** What a finished asset load does to the state. */
  function Apply(s: State, a: AssetLoad): State {
    s.(cache := Write(s.cache, a))
  }

  function Write(cache: map<string, Record>, a: AssetLoad): map<string, Record> {
    match a
    case Stored(id, record) => cache[id := record]
    case _ => cache
  }

  /** The outcome of loading each name of `models` for `level`. */
  function Outcomes(env: Env, models: map<string, string>, level: Option<string>): (o: map<string, AssetLoad>)
    ensures o.Keys == models.Keys
  {
    map n | n in models :: LoadAssetByName(models, env, n, Options(level))
  }

  /** The cache keys the loads of `names` write. */
  function StoredIds(o: map<string, AssetLoad>, names: set<string>): set<string>
    requires names <= o.Keys
  {
    set n | n in names && o[n].Stored? :: o[n].id
  }

  /** `id` holds the record written by one of the loads of `names`. */
  ghost predicate WrittenByOne(cache: map<string, Record>, o: map<string, AssetLoad>, names: set<string>, id: string)
    requires names <= o.Keys
  {
    id in cache && exists m :: m in names && o[m].Stored? && o[m].id == id && cache[id] == o[m].record
  }

  /** `cache` is `before` after the loads of `names` finished, in some order:
      exactly their ids were added, each holding one of their records, and
      every other entry is untouched. */
  ghost predicate CacheAfter(before: map<string, Record>, cache: map<string, Record>, o: map<string, AssetLoad>, names: set<string>)
    requires names <= o.Keys
  {
    && cache.Keys == before.Keys + StoredIds(o, names)
    && (forall k :: k in before && k !in StoredIds(o, names) ==> cache[k] == before[k])
    && (forall n :: n in names && o[n].Stored? ==> WrittenByOne(cache, o, names, o[n].id))
  }

  lemma CacheAfterStep(before: map<string, Record>, cache: map<string, Record>, o: map<string, AssetLoad>, names: set<string>, name: string)
    requires names <= o.Keys && name in o
    requires CacheAfter(before, cache, o, names)
    ensures CacheAfter(before, Write(cache, o[name]), o, names + {name})
  {
    var names' := names + {name};
    var cache' := Write(cache, o[name]);
    assert StoredIds(o, names') == StoredIds(o, names) + (if o[name].Stored? then {o[name].id} else {});
    forall n | n in names' && o[n].Stored?
      ensures WrittenByOne(cache', o, names', o[n].id)
    {
      if o[name].Stored? && o[n].id == o[name].id {
        assert cache'[o[n].id] == o[name].record;
      } else {
        assert n in names;
        assert WrittenByOne(cache, o, names, o[n].id);
        var m :| m in names && o[m].Stored? && o[m].id == o[n].id && cache[o[n].id] == o[m].record;
        assert cache'[o[n].id] == o[m].record;
      }
    }
  }

  /** One of the loads of `names` never settles. */
  ghost predicate AnyStalled(o: map<string, AssetLoad>, names: set<string>)
    requires names <= o.Keys
  {
    exists n :: n in names && o[n] == Stalled
  }

  lemma AnyStalledAdd(o: map<string, AssetLoad>, names: set<string>, name: string)
    requires names <= o.Keys && name in o
    ensures AnyStalled(o, names + {name}) <==> AnyStalled(o, names) || o[name] == Stalled
  {
    if AnyStalled(o, names + {name}) && o[name] != Stalled {
      var n :| n in names + {name} && o[n] == Stalled;
      assert n in names;
    }
  }

  /** `loadModels(models, level)`: remembers the bucket, loads every name in
      it, and resolves once all loads resolved (any stalled load leaves it
      pending; a rejection would be caught and resolve). An empty bucket
      resolves at once. Completion order is not modelled: names are taken in
      any order, which matters only when two names share an asset id. */
  method LoadModels(s: State, env: Env, models: map<string, string>, level: Option<string>)
    returns (r: State, settled: Settlement)
    ensures r.models == models && r.currentLevel == s.currentLevel
    ensures settled != Rejected
    ensures |models| == 0 ==> settled == Fulfilled && r.cache == s.cache
    ensures settled == Pending <==> AnyStalled(Outcomes(env, models, level), models.Keys)
    ensures CacheAfter(s.cache, r.cache, Outcomes(env, models, level), models.Keys)
  {
    r := s.(models := models);
    if |models| == 0 {
      assert models.Keys == {};
      assert StoredIds(Outcomes(env, models, level), {}) == {};
      return r, Fulfilled;
    }
    var stalled;
    r, stalled := LoadEach(r, env, level);
    settled := if stalled then Pending else Fulfilled;
  }

  /** The loop of `loadModels`: every name of the current bucket is loaded,
      in any order. */
  method LoadEach(s: State, env: Env, level: Option<string>) returns (r: State, stalled: bool)
    ensures r.models == s.models && r.currentLevel == s.currentLevel
    ensures stalled <==> AnyStalled(Outcomes(env, s.models, level), s.models.Keys)
    ensures CacheAfter(s.cache, r.cache, Outcomes(env, s.models, level), s.models.Keys)
  {
    r := s;
    ghost var o := Outcomes(env, s.models, level);
    ghost var done: set<string> := {};
    assert StoredIds(o, done) == {};
    var remaining := s.models.Keys;
    stalled := false;
    while remaining != {}
      invariant remaining <= s.models.Keys && done == s.models.Keys - remaining
      invariant r.models == s.models && r.currentLevel == s.currentLevel
      invariant stalled <==> AnyStalled(o, done)
      invariant CacheAfter(s.cache, r.cache, o, done)
      decreases remaining
    {
      var name :| name in remaining;
      var outcome := LoadAssetByName(r.models, env, name, Options(level));
      assert outcome == o[name];
      CacheAfterStep(s.cache, r.cache, o, done, name);
      AnyStalledAdd(o, done, name);
      r := Apply(r, outcome);
      stalled := stalled || outcome == Stalled;
      remaining := remaining - {name};
      done := done + {name};
    }
  }

  /** `hasAnimations(animations = [])`. */
  predicate HasAnimations(animations: Option<seq<Clip>>)
    ensures HasAnimations(animations) <==> |animations.GetOr([])| > 0
  {
    animations.Some? && |animations.value| > 0
  }

  /** `this.map[name] || this.map[buildAssetId(name, currentLevel)]`: the bare
      name first, then the level-scoped id. */
  function Lookup(s: State, env: Env, name: string): (r: Option<Record>)
    ensures name in s.cache ==> r == Some(s.cache[name])
    ensures name !in s.cache ==> (r.Some? <==> env.assetId(name, s.currentLevel) in s.cache)
    ensures r.Some? ==> r.value in s.cache.Values
  {
    if name in s.cache then Some(s.cache[name])
    else
      var id := env.assetId(name, s.currentLevel);
      if id in s.cache then Some(s.cache[id]) else None
  }

  datatype CloneStrategy = StructuralClone | SkeletonClone

  /** A property of the element's options: text (`name`, `builtAssetId`, or
      a caller's value) or a scene object (the prepared model under `body`,
      or one a caller passes). */
  datatype Prop = Text(text: string) | Object(node: Node)

  /** The element `create` builds: its options (`body`, then `name` and
      `builtAssetId`, then the caller's options on top), the clone algorithm
      used, and the animation clips its animation handler plays, if it has
      one. */
  datatype Element = Element(
    props: map<string, Prop>,
    clone: CloneStrategy,
    animationHandler: Option<seq<Clip>>)

  /** `create(name, options)`: `None` is the `false` it returns when no cached
      record with a scene is found; it never throws. The clone of the scene
      is the element's `body` unless the caller's options carry their own. */
  function Create(s: State, env: Env, name: string, options: map<string, Prop>): (r: Option<Element>)
    ensures r.None? <==> Lookup(s, env, name).None? || Lookup(s, env, name).value.scene.None?
    ensures r.Some? ==>
      var rec := Lookup(s, env, name).value;
      && (r.value.clone == SkeletonClone <==> HasAnimations(rec.animations))
      && (r.value.animationHandler.Some? <==> HasAnimations(rec.animations))
      && (r.value.animationHandler.Some? ==> r.value.animationHandler == rec.animations)
      && r.value.props.Keys == options.Keys + {"body", "name", "builtAssetId"}
      && (forall k :: k in options ==> r.value.props[k] == options[k])
      && ("body" !in options ==> r.value.props["body"] == Object(rec.scene.value))
      && ("name" !in options ==> r.value.props["name"] == Text(name))
      && ("builtAssetId" !in options ==> r.value.props["builtAssetId"] == Text(env.assetId(name, s.currentLevel)))
  {
    var builtAssetId := env.assetId(name, s.currentLevel);
    match Lookup(s, env, name)
    case None => None
    case Some(rec) =>
      match rec.scene
      case None => None
      case Some(scene) =>
        var elementOptions := map["name" := Text(name), "builtAssetId" := Text(builtAssetId)] + options;
        // `extension !== EXTENSIONS.COLLADA` compares a string with undefined
        var clone := if Some(rec.extension) != COLLADA && HasAnimations(rec.animations)
          then SkeletonClone else StructuralClone;
        var handler := if HasAnimations(rec.animations) then rec.animations else None;
        Some(Element(map["body" := Object(scene)] + elementOptions, clone, handler))
  }

  /** A record stored by a load under the id of the current level is what
      `create` instantiates, unless a record stored under the bare name
      shadows it; each call yields an equal but separate copy. */
  lemma CreateFindsStoredModel(s: State, env: Env, name: string, parsed: Parsed, extension: string, options: map<string, Prop>)
    requires name !in s.cache || name == env.assetId(name, s.currentLevel)
    requires parsed.scene.Some?
    ensures var t := StoreModel(s, env.assetId(name, s.currentLevel), parsed, extension);
      && Create(t, env, name, options).Some?
      && ("body" !in options ==> Create(t, env, name, options).value.props["body"] == Object(parsed.scene.value))
      && Create(t, env, name, options).value.animationHandler.Some? == HasAnimations(parsed.animations)
  {
  }

  /** Lookup order: an entry under the bare name wins over the scoped id. */
  lemma CreatePrefersBareName(s: State, env: Env, name: string, options: map<string, Prop>)
    requires name in s.cache && s.cache[name].scene.Some?
    ensures Create(s, env, name, options).Some?
    ensures "body" !in options ==> Create(s, env, name, options).value.props["body"] == Object(s.cache[name].scene.value)
  {
  }

  /** A model whose file is fetched and parses with a scene, loaded for the
      current level, is what `create` then instantiates: the load stores the
      parse under the level's id, and `create` finds it there. */
  lemma LoadThenCreate(s: State, env: Env, path: string, name: string, parsed: Parsed, options: map<string, Prop>)
    requires name !in s.cache || name == env.assetId(name, s.currentLevel)
    requires var extension := ExtractExtension(path, env.parseUrl(path));
      var fetched := Fetch(env, GetLoaderFromExtension(extension, Options(s.currentLevel)), path);
      fetched.Some? && Parse(ParserFor(extension), fetched.value) == Some(parsed)
    requires parsed.scene.Some?
    ensures var extension := ExtractExtension(path, env.parseUrl(path));
      var t := Apply(s, LoadAssetByPath(env, path, name, Options(s.currentLevel)));
      && t == StoreModel(s, env.assetId(name, s.currentLevel), parsed, extension)
      && Create(t, env, name, options).Some?
      && ("body" !in options ==> Create(t, env, name, options).value.props["body"] == Object(parsed.scene.value))
  {
    CreateFindsStoredModel(s, env, name, parsed, ExtractExtension(path, env.parseUrl(path)), options);
  }
}

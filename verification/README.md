# Mage asset manifest, model cache and hash router in Dafny

This project models three parts of the Mage game engine:

- **The asset manifest** (`src/core/Assets.js`). `parseAssets` splits a manifest into:
  - a common group of nine typed buckets (name → path);
  - one group per level, each overlaid on empty defaults.

  Every group carries a loaded flag and a loading flag. `load(level)` fans out to the per-type loaders whenever its scope is neither loaded nor loading. As written it never sets the loading flag, so two overlapping loads both fan out. A rejected or stalled load changes no flag, so the scope can be loaded again. A load of an unknown level fans out every time. A fully resolved load marks its scope and the common group loaded. `toJSON` exports the buckets without the flags.
- **The model cache** (`src/models/Models.js`). The path's extension selects both the loader and the parser. The parsers normalise and annotate the scene tree. Each load stores its record under `buildAssetId(name, level)`. `loadModels` loads a whole bucket. `create` instantiates a cached record: the bare name is looked up first, then the level-scoped id.
- **The hash router** (`src/router/Router.js`). `cleanRoute` normalises a route. `on` registers a route with the game runner and records it only when the runner accepts it. `handleHashChange` starts the accepted route named by the location hash, if there is one. `start` does the same, falling back to the root.

How the JS is represented:

- JS objects are values. Mutation becomes a function from the old state to the new one.
- Promises are reduced to how they end: `Fulfilled`, `Rejected` or `Pending` for ever (module `Promises`).
- Scene trees are the datatype `SceneTree.Node`. `traverse` is a pre-order map over its node data.
- Collaborators whose code is not part of this model are parameters. These are `isLevelName`, `buildAssetId`, `new URL`, the loaders' network fetch, `runner.register`, and the settlements of the other asset loaders and of the environment check.

The modules are:

- `Values`: `Option`, and `undefined` as text.
- `Strings`: `split`, `toLowerCase` on ASCII, `replace` of the first occurrence.
- `Promises`
- `SceneTree`
- `Formats`: extensions, loaders and parsers.
- `Models`
- `Assets`: the value-semantics manifest.
- `AssetsShared`: the parser with its shared objects as written.
- `Router`

In `create`, the code looks up `this.map[name]` before the level-scoped id `buildAssetId(name, currentLevel)`. The model follows the code (`Models.CreatePrefersBareName`).

## Model

| member | source | states |
|---|---|---|
| Strings.SplitHasSeveralPartsIffSeparator | src/router/Router.js:47 | `split` yields a second part exactly when the separator occurs |
| Strings.JoinSplit | src/router/Router.js:47 | joining the parts of `split` with the separator gives back the string |
| Strings.SplitAround | src/router/Router.js:47 | splitting at a separator occurrence concatenates the parts of both sides |
| Strings.LastPartAfterSeparator | src/models/Models.js:51 | the last part of `stem.last` (with no separator in `last`) is `last` |
| Strings.LastPartIsSuffix | src/models/Models.js:51 | the last `split` part is a suffix of the string and holds no separator |
| Strings.LowerIsLower | src/core/Assets.js:52 | lower-casing yields a lower-case string and fixes exactly the lower-case strings |
| Strings.ReplaceFirstSpec | src/router/Router.js:68 | `replace` rewrites the first occurrence of the character and nothing else |
| Strings.ReplaceFirstAbsent | src/router/Router.js:68 | without an occurrence `replace` leaves the string unchanged |
| Promises.All | src/core/Assets.js:158-166 | `Promise.all` rejects iff a member rejects, resolves iff all resolve, else stays pending |
| Promises.Caught | src/models/Models.js:192-197 | a logging `.catch` turns rejection into resolution and passes anything else through |
| SceneTree.TraverseVisitsEveryNode | src/models/Models.js:66-70 | `traverse` keeps the tree's shape and applies the visitor to every node in pre-order |
| Formats.ExtractExtension | src/models/Models.js:49-54 | an extension never contains a full stop |
| Formats.ExtensionIsFinalSegment | src/models/Models.js:49-54 | the extension is the suffix after the last full stop of the pathname (URL) or path, and all of it without a full stop |
| Formats.UrlExtensionIgnoresQuery | src/models/Models.js:41-54 | for a URL only the pathname is used, so a query string never reaches the extension |
| Formats.GetLoaderFromExtension | src/models/Models.js:56-63 | glb/gltf pick the glTF loader, fbx the FBX loader, obj the OBJ/MTL loader, all else the object loader; options are always applied |
| Formats.ParserFor | src/models/Models.js:103-110 | each of the glb, gltf, fbx and collada keys selects its own parser; every other extension selects the default parser |
| Formats.Parse | src/models/Models.js:65-101 | glb and collada parse iff the loaded glTF record has a scene; fbx parses iff given an object; gltf always parses; only the default parser reports no animations, and on an object it returns that object as the scene |
| Formats.ParserTable | src/models/Models.js:103-110 | each listed extension has its parser; collada is keyed by the text "undefined"; obj and all else use the default parser |
| Formats.LoaderMatchesParser | src/models/Models.js:33-39 | the glTF loader is chosen exactly when a glTF-record parser is |
| Formats.GlbParserMarksMeshes | src/models/Models.js:65-76 | glbParser sets `castShadow` on every mesh, changes nothing else, and passes the animations through |
| Formats.PassThroughParsers | src/models/Models.js:77-78 | the gltf and default parsers only reshape; the default one reports no animations |
| Formats.ColladaParserUncullsSkinnedMeshes | src/models/Models.js:79-92 | colladaParser turns frustum culling off on skinned meshes only |
| Formats.FbxParserSkinsSkinnedMaterials | src/models/Models.js:93-101 | fbxParser marks every material of a skinned mesh as skinned and takes the animations from the root |
| Formats.ColladaParserAlwaysThrows | src/models/Models.js:103-110 | the collada parser is reached only with the object loader, whose result has no `scene`, so it throws |
| Models.StoreModel | src/models/Models.js:176-179 | the record is stored under the name with its extension; every other cache entry is untouched |
| Models.LoadAssetByPath | src/models/Models.js:210-240 | a failed fetch never settles; a fetched file is stored iff its parser does not throw, and then the record is the parse tagged with the path's extension, keyed by `buildAssetId(name, level)`; it never comes from the collada parser |
| Models.LoadAssetByName | src/models/Models.js:200-208 | a name without a truthy path resolves at once and stores nothing; otherwise it is exactly the load of its path under the scoped id |
| Models.LoadModels | src/models/Models.js:181-198 | the bucket is remembered; an empty bucket resolves at once; the result never rejects; it stays pending iff some load stalls; the cache gains exactly the stored ids |
| Models.LoadEach | src/models/Models.js:184-192 | after loading every name in any order, each stored id holds one of the records stored under it and all else is untouched |
| Models.HasAnimations | src/models/Models.js:112 | a missing clip list counts as empty; there are animations iff the list is non-empty |
| Models.Lookup | src/models/Models.js:141-142 | the bare name's entry if there is one, else the entry under the level-scoped id, else nothing |
| Models.Create | src/models/Models.js:140-174 | `false` iff no record with a scene is found. Otherwise the element options hold `body`, `name`, `builtAssetId` and every caller option, and a caller option overrides each of the three. The skeleton clone and the animation handler are used exactly when there are animations: the collada exclusion never applies, because the collada extension constant is undefined |
| Models.CreateFindsStoredModel | src/models/Models.js:140-162 | a record stored under the current level's id is what `create` instantiates: its scene is the body unless the options carry one |
| Models.LoadThenCreate | src/models/Models.js:140-232 | a file that is fetched and parses with a scene, loaded for the current level, is stored under the level's id and is what `create` then instantiates |
| Models.CreatePrefersBareName | src/models/Models.js:142 | an entry under the bare name wins over the level-scoped id |
| Assets.ParseAssets | src/core/Assets.js:49-68 | the parsed store has every typed bucket in every group, and the common flags start false |
| Assets.ParseAssetsMeaning | src/core/Assets.js:49-68 | each common bucket comes from the last key naming its type; the levels are exactly the level-named lower-cased keys, each its last value over empty defaults |
| Assets.UnknownKeyIgnored | src/core/Assets.js:52-63 | a key that is neither a type nor a level name changes nothing |
| Assets.LevelsStartFromEmptyDefaults | src/core/Assets.js:57-63 | a level's unlisted buckets are empty and its flags are false unless the manifest sets them |
| Assets.TwoKeyPartition | src/core/Assets.js:49-68 | one type key and one level key: the bucket goes to common, and the level holds only its own buckets over empty defaults |
| Assets.ExamplePartition | src/core/Assets.js:49-68 | in the audio-plus-level manifest the level's audio bucket is empty and the level is neither loaded nor loading |
| Assets.SetAssets | src/core/Assets.js:70-72 | the store is replaced by the parse of the manifest, which is well formed with unset common flags and holds exactly what the manifest lists |
| Assets.LevelAssets | src/core/Assets.js:76 | a known level reads its group; an unknown one reads empty defaults |
| Assets.BucketOf | src/core/Assets.js:111-129 | with a truthy level the accessors read that level's bucket (empty for an unknown level), otherwise the common bucket |
| Assets.SetLevelLoaded | src/core/Assets.js:78-82 | only a known level's loaded flag is written; the common group and every other level are unchanged |
| Assets.SetLevelLoading | src/core/Assets.js:84-88 | only a known level's loading flag is written; the common group and every other level are unchanged |
| Assets.SetCommonLoaded | src/core/Assets.js:95-97 | only the common loaded flag is written |
| Assets.SetCommonLoading | src/core/Assets.js:99-101 | only the common loading flag is written |
| Assets.Loaded | src/core/Assets.js:90-107 | with a truthy level: that level's loaded flag, false for an unknown level; otherwise the common flag |
| Assets.Loading | src/core/Assets.js:92-109 | with a truthy level: that level's loading flag, false for an unknown level; otherwise the common flag |
| Assets.LevelFlagsRoundTrip | src/core/Assets.js:78-109 | level flag setters write only the named known level's flag; getters read back what was set and are false for unknown levels |
| Assets.PostAssetsLoad | src/core/Assets.js:131-136 | on completion a known level is marked loaded and the common group is always marked loaded; nothing else changes |
| Assets.PreAssetsLoad | src/core/Assets.js:138-144 | the loading thunk marks the level, or without a level the common group, as loading |
| Assets.JoinedOutcome | src/core/Assets.js:158-164 | with a model load that does not reject, the joined sub-loads reject iff another loader rejects, stay pending iff none rejects and one of the five (the models' included) is pending, and resolve iff all five resolve |
| Assets.Load | src/core/Assets.js:150-167 | `load` fans out iff the scope is neither loaded nor loading, and loads the scope's model bucket, which the model cache then remembers; the cache's current level is kept. The result never rejects: a rejected loader yields a resolved result. A pending loader or a stalled model load with no rejection yields a pending result. It sets no loading flag. The store changes only when every loader resolves and no model load stalls; then the result is exactly `postAssetsLoad`, which marks the scope and common loaded and changes nothing else. A rejected or pending load changes nothing |
| Assets.LoadOutcome | src/core/Assets.js:158-167 | given its loaders' settlements, a fanned-out load is resolved when one rejects, pending when none rejects and one (the models' included) is pending, and resolved with `postAssetsLoad` applied exactly when all resolve; otherwise the store is unchanged |
| Assets.FinishFlags | src/core/Assets.js:131-136 | finishing changes the store only on success, then marking common and a known level loaded |
| Assets.OverlappingLoadsBothFanOutAsWritten | src/core/Assets.js:150-167 | as written, when a sub-load (the models' included) is still pending after a first `load` and none rejected, a second `load` of the same scope fans out again |
| Assets.InFlightBlocksSecondLoad | src/core/Assets.js:138-154 | once the loading thunk has run for a known scope, the guard of a second `load` short-circuits |
| Assets.InFlightFlags | src/core/Assets.js:138-144 | the loading thunk keeps the store well formed, sets the loading flag of a known scope and changes no loaded flag |
| Assets.FinishCorrectedFlags | src/core/Assets.js:131-136 | with the loading flag cleared on settlement: a pending join changes nothing, a settled one leaves the scope not loading, and only success marks it loaded |
| Assets.LoadCorrected | src/core/Assets.js:150-167 | with the thunk invoked, a fanned-out load of a known scope stays marked loading while a sub-load, the models' included, is pending with no rejection (the store is exactly the loading thunk's), and is unmarked once settled; it is marked loaded only when every loader resolves; no bucket and no other level ever changes; the cache remembers the bucket and keeps its current level |
| Assets.LoadCorrectedFrame | src/core/Assets.js:131-144 | the corrected completion changes no bucket and no other level, and while pending leaves exactly the loading thunk's store |
| Assets.FinishCorrectedFrame | src/core/Assets.js:131-136 | completing a corrected load changes no bucket, no other level, and for a level load not the common loading flag |
| Assets.LoadCorrectedOutcome | src/core/Assets.js:150-167 | given its loaders' settlements, a corrected load is resolved when one rejects, pending and still marked loading when none rejects and one (the models' included) is pending, unmarked once settled, and marked loaded exactly when all resolve |
| Assets.OverlappingLoadsDeduplicated | src/core/Assets.js:138-167 | with the thunk invoked, a second `load` of a known scope while a sub-load (the models' included) is pending and none rejected short-circuits |
| Assets.RejectedLoadIsRetried | src/core/Assets.js:150-167 | with the thunk invoked, a rejected load clears its loading flag, so a second `load` fans out again |
| Assets.UnknownLevelLoadMarksCommon | src/core/Assets.js:131-136 | loading an unknown level finds empty buckets and marks the common scope loaded, which blocks a later common load |
| Assets.LoadedScopeShortCircuits | src/core/Assets.js:150-154 | after a successful load every later load of the scope returns at once; a failed one changes nothing |
| Assets.ToJson | src/core/Assets.js:174-182 | the export has one entry per common type and per level, with level groups stripped of their flags |
| Assets.ToJsonRoundTrip | src/core/Assets.js:174-182 | parsing a listing of the export gives back every bucket of every group, with the flags reset |
| AssetsShared.ParseAssetsShared | src/core/Assets.js:49-68 | the shared-object parse keeps every group seeded and the common flags as they were |
| AssetsShared.SharedAgreesOnCommonAndLevelNames | src/core/Assets.js:49-68 | from pristine defaults, the as-written parse agrees with the value parse on the common group and the level names |
| AssetsShared.ReparseKeepsOldLevels | src/core/Assets.js:66-67 | a second `setAssets` keeps every earlier level the new manifest does not name |
| AssetsShared.TwoKeyPartitionShared | src/core/Assets.js:57-62 | as written, a level created after a common bucket holds that bucket unless it overrides the type |
| AssetsShared.ExampleLeaksCommonIntoLevel | src/core/Assets.js:57-62 | as written, the level of the audio-plus-level manifest holds the common audio bucket |
| AssetsShared.LoadedFlagLeaksIntoNewLevel | src/core/Assets.js:57-62 | as written, a level parsed after a finished common load starts loaded and is never loaded; the value parse starts it unloaded |
| AssetsShared.LevelAssetsShared | src/core/Assets.js:76 | as written, an unknown level reads the common group itself |
| AssetsShared.UnknownLevelReadsCommon | src/core/Assets.js:76 | an unknown level reads common buckets as written and empty ones in the value model |
| Router.CleanRoute | src/router/Router.js:43-50 | a cleaned route starts with "/", holds no "#", and is "/" for the empty route |
| Router.CleanRouteDefault | src/router/Router.js:43 | the default argument "#" cleans to "/" |
| Router.CleanRouteTakesSecondSegment | src/router/Router.js:47-49 | a route with a "#" cleans to "/" plus the text after it |
| Router.CleanRouteIgnoresLaterSegments | src/router/Router.js:47-49 | text after a second "#" is dropped |
| Router.CleanRouteWithoutHash | src/router/Router.js:47-49 | a non-empty route without "#" cleans to "/undefined" |
| Router.CleanRouteTwice | src/router/Router.js:43-50 | cleaning a cleaned route gives "/undefined" |
| Router.ExtractLocationHash | src/router/Router.js:35-41 | the location route always starts with "/" and holds no "#" |
| Router.LocationHashes | src/router/Router.js:35-41 | an empty hash is "/", "#rest" is "/rest", and no location gives "/undefined" |
| Router.RegisteredPathOfRootedRoute | src/router/Router.js:68 | a route "/rest" is registered with the runner under itself |
| Router.IsValidRoute | src/router/Router.js:52 | a route is valid iff it is one of the recorded routes |
| Router.On | src/router/Router.js:67-72 | an accepted route is appended to the routes and a refused one changes nothing, so a route becomes valid exactly when the runner accepts its path |
| Router.OnKeepsNavigation | src/router/Router.js:67-72 | registering a route never disables a navigation that worked |
| Router.UnreachableRouteNeverStarts | src/router/Router.js:52-72 | a route not starting with "/" or holding "#" never matches a location |
| Router.HandleHashChange | src/router/Router.js:59-65 | the runner is started with the location route iff that route was accepted |
| Router.NavigateToRegisteredRoute | src/router/Router.js:59-72 | accepting "/rest" and navigating to "#rest" starts "/rest" |
| Router.StartRoute | src/router/Router.js:97-107 | start uses the location route exactly when it was accepted, the root otherwise |
| Router.StartMatchesHashChange | src/router/Router.js:97-107 | start picks what a hash change would start, falling back to the root |
| Router.StartWithoutLocation | src/router/Router.js:35-41 | without a location the start route is "/undefined" if accepted, else "/" |
| Router.Start | src/router/Router.js:80-110 | the runner starts iff both the environment check and the asset load resolve, with the start route |

## Left out

- The RequirementsTracer and `onMissingRequirements` events of `src/models/Models.js`: they only forward missing-requirement notifications and change no state.
- The deprecated `get` and `getModel`: they warn and call `create` unchanged.
- `update(dt)` of `src/core/Assets.js`: it only forwards the frame time to the audio and light systems.
- `setCurrentLevel`: it is a plain field write. The Assets version sets its own field and calls the Models version, which sets the `currentLevel` of `Models.State` that `Models.Create` reads; its other calls go to Audio and Images, which are outside this model.
- `prepareModel`, `Element` and the entity type tags in `create`: their code is not part of this model. `Models.Element` records the options object handed to `Element` (with `body` as an unprepared scene), the clone strategy and the animation clips.
- `scene.clone()` and `SkeletonUtils.clone`: under value semantics a clone is an equal copy. Only the choice between them is modelled.
- Material aliasing between cloned scenes: it is not representable with value semantics.
- Inherited `Object.prototype` keys in manifest and cache lookups: only own keys are modelled.
- Manifest values of the wrong shape, such as an array or a number in a type or level slot: these are read as their bucket or as empty.
- Lower-casing: `toLowerCase` is modelled on ASCII letters only.
- Synchronous exceptions, such as `loader.load` throwing: they are not modelled. A parser that throws inside the load callback is modelled, as a load that never settles.
- `setAssets()` with no argument, which parses the default common group: the model always takes a manifest.
- The values of ASSETS_TYPES live in `src/lib/constants`, which is not part of this model. They are taken as the nine lower-case names the accessors read.
- `isLevelName` and `buildAssetId` live in `src/lib/utils/assets`, which is not part of this model. They are parameters.
- In `start`: `createStore`, `Config`, `util.start` and the stored configuration and selector only set up the environment. They do not influence which route starts.
- AssetsManager (`src/base/AssetsManager`) and the environment checker are not part of this model. `Router.Start` takes their settlements as parameters.
- Assets.LoadCorrected: the corrected loading flag protects known scopes only. An unknown level has no group to mark, so overlapping loads of it still both fan out, as in the code.
- The Audio, Video, Images and Scripts loaders: `Assets.Load` takes their settlements as parameters.
- Models.LoadModels: the order in which loads complete is not modelled. Names are taken in any order, which matters only when two names share an asset id.
- The `hashchange` listener registration: the model has no event loop. `Router.HandleHashChange` is what the listener runs.
- The `tracer` returned next to each loader: it belongs to the requirements events above.

## Findings

| source | as written | input that shows it | evidently intended | confidence | as-written member | corrected member |
|---|---|---|---|---|---|---|
| src/core/Assets.js:16-33, 49-68, 76 | `parseAssets` reduces into the shared DEFAULT_ASSETS, whose common group is DEFAULT_COMMON_ASSETS, and seeds levels by spreading it. A level created after a common entry therefore inherits that common bucket (and a finished common load's flag), and later parses fold into the earlier ones. | `{audio: {a: "a.mp3"}, level1: {models: {m: "m.glb"}}}`: level1's audio bucket is `{a: "a.mp3"}` | each level starts from empty default buckets and unloaded flags | not executed | AssetsShared.ExampleLeaksCommonIntoLevel | Assets.ExamplePartition |
| src/core/Assets.js:138-144, 150-156 | `load` calls `this.preAssetsLoad(level)`, which returns the thunk that sets the loading flag and discards it. The flag is never set, so the guard cannot stop a second load while one is in flight. | a first `load()` on a fresh store whose audio loader is still pending leaves the store unchanged, so a second `load()` fans out again | the first `load` marks its scope loading while it is in flight, so a concurrent one short-circuits; the corrected model clears the flag once the load settles, so a rejected load can be retried (Assets.RejectedLoadIsRetried) | not executed | Assets.OverlappingLoadsBothFanOutAsWritten | Assets.OverlappingLoadsDeduplicated |

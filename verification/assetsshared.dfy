/** The manifest parser as the source has it, with its shared objects made
    explicit. `parseAssets` reduces into the module constant DEFAULT_ASSETS,
    whose `common` group IS the constant DEFAULT_COMMON_ASSETS, and seeds
    every level by spreading DEFAULT_COMMON_ASSETS. So the reducer's writes
    to common buckets are visible to every level created after them, the
    common flags are copied into new levels, a second `setAssets` folds into
    what the first one left, and `getLevelAssets` of an unknown level hands
    back the common group itself.

    The store passed in is the current content of those shared objects; the
    store returned is their content afterwards (and what `this.assets`
    points to). Assets.ParseAssets is the value-semantics definition the
    rest of the model uses. */
module AssetsShared {

  import opened Values
  import opened Strings
  import opened Assets

  /** `parseAssets(assets)` over the shared default store `shared`: each
      level is overlaid on the common group as it stands at that point of
      the reduction. */
  function ParseAssetsShared(isLevelName: string -> bool, shared: Store, m: Manifest): (s: Store)
    requires WellFormed(shared)
    ensures WellFormed(s)
    ensures s.common.isLoaded == shared.common.isLoaded && s.common.isLoading == shared.common.isLoading
    decreases |m|
  {
    if |m| == 0 then shared
    else
      var acc := ParseAssetsShared(isLevelName, shared, m[..|m| - 1]);
      Step(isLevelName, acc, m[|m| - 1].0, m[|m| - 1].1, acc.common)
  }

  /** `getLevelAssets(level)` as written: an unknown level reads the shared
      common group, not an empty one. */
  function LevelAssetsShared(s: Store, level: string): (g: Group)
    ensures level !in s.levels ==> g == s.common
    ensures level in s.levels ==> g == s.levels[level]
  {
    if level in s.levels then s.levels[level] else s.common
  }

  /** Starting from the pristine defaults, the shared reduction and the
      value-semantics one agree on the common group and on which levels
      exist; they differ only in what a level is seeded with. */
  lemma {:induction false} SharedAgreesOnCommonAndLevelNames(isLevelName: string -> bool, m: Manifest)
    ensures ParseAssetsShared(isLevelName, Initial, m).common == ParseAssets(isLevelName, m).common
    ensures ParseAssetsShared(isLevelName, Initial, m).levels.Keys == ParseAssets(isLevelName, m).levels.Keys
    decreases |m|
  {
    if |m| > 0 {
      var prefix := m[..|m| - 1];
      SharedAgreesOnCommonAndLevelNames(isLevelName, prefix);
      var a := ParseAssetsShared(isLevelName, Initial, prefix);
      StepAgrees(isLevelName, a, ParseAssets(isLevelName, prefix), m[|m| - 1].0, m[|m| - 1].1, a.common, DefaultGroup);
    }
  }

  /** Whatever the seed, one reducer step writes the same common bucket and
      the same level name. */
  lemma StepAgrees(isLevelName: string -> bool, a: Store, b: Store, key: string, v: RawValue, seedA: Group, seedB: Group)
    requires a.common == b.common && a.levels.Keys == b.levels.Keys
    ensures Step(isLevelName, a, key, v, seedA).common == Step(isLevelName, b, key, v, seedB).common
    ensures Step(isLevelName, a, key, v, seedA).levels.Keys == Step(isLevelName, b, key, v, seedB).levels.Keys
  {
  }

  /** A level of the previous store that the new manifest does not name
      survives a second `setAssets` unchanged. */
  lemma {:induction false} ReparseKeepsOldLevels(isLevelName: string -> bool, shared: Store, m: Manifest, l: string)
    requires WellFormed(shared) && l in shared.levels
    requires forall i :: 0 <= i < |m| ==> Lower(m[i].0) != l
    ensures l in ParseAssetsShared(isLevelName, shared, m).levels
    ensures ParseAssetsShared(isLevelName, shared, m).levels[l] == shared.levels[l]
    decreases |m|
  {
    if |m| > 0 {
      ReparseKeepsOldLevels(isLevelName, shared, m[..|m| - 1], l);
    }
  }

  /** A manifest with one common bucket and then one level, parsed as
      written: the level is seeded with the common group as the reduction
      left it, so it holds the common bucket unless it overrides that type.
      Assets.TwoKeyPartition gives the same level empty defaults instead. */
  lemma TwoKeyPartitionShared(isLevelName: string -> bool, t: string, p: Bucket, l: string, b: map<string, Bucket>)
    requires t in AssetTypes && Lower(t) == t
    requires l !in AssetTypes && Lower(l) == l && isLevelName(l)
    ensures var s := ParseAssetsShared(isLevelName, Initial, [(t, Paths(p)), (l, Overrides(b, None, None))]);
      && s.common.buckets[t] == p
      && s.levels.Keys == {l}
      && s.levels[l] == Group(DefaultGroup.buckets[t := p] + b, false, false)
  {
    var m := [(t, Paths(p)), (l, Overrides(b, None, None))];
    assert m[..1] == [(t, Paths(p))] && m[..1][..0] == [];
    var first := Step(isLevelName, Initial, t, Paths(p), Initial.common);
    assert ParseAssetsShared(isLevelName, Initial, m[..1]) == first;
  }

  /** The example manifest, parsed as written: the level receives the
      common audio bucket, which the value-semantics parser leaves empty
      (Assets.ExamplePartition). */
  lemma ExampleLeaksCommonIntoLevel(isLevelName: string -> bool)
    requires isLevelName("level1")
    ensures var s := ParseAssetsShared(isLevelName, Initial, Example);
      && s.levels.Keys == {"level1"}
      && s.levels["level1"].buckets["audio"] == map["a" := "a.mp3"]
      && s.levels["level1"].buckets["models"] == map["m" := "m.glb"]
  {
    assert Lower("audio") == "audio";
    assert Lower("level1") == "level1";
    TwoKeyPartitionShared(isLevelName, "audio", map["a" := "a.mp3"], "level1", map["models" := map["m" := "m.glb"]]);
  }

  /** Once the common scope was marked loaded (a `load()` finished before
      `setAssets`), a level created by the next `setAssets` starts out
      loaded, so `load(level)` short-circuits and its assets never load.
      The value-semantics parser starts the level unloaded. */
  lemma LoadedFlagLeaksIntoNewLevel(isLevelName: string -> bool)
    requires isLevelName("level1")
    ensures var s := ParseAssetsShared(isLevelName, SetCommonLoaded(Initial, true), [("level1", Falsy)]);
      && "level1" in s.levels && s.levels["level1"].isLoaded
      && !ShouldLoad(s, Some("level1"))
    ensures var s := ParseAssets(isLevelName, [("level1", Falsy)]);
      && "level1" in s.levels && !s.levels["level1"].isLoaded
      && ShouldLoad(s, Some("level1"))
  {
    assert Lower("level1") == "level1";
    assert "level1" !in AssetTypes;
    var m: Manifest := [("level1", Falsy)];
    assert m[..0] == [];
  }

  /** As written, a level the manifest does not name reads as the common
      group, buckets included; the value-semantics reader gives empty
      buckets. */
  lemma UnknownLevelReadsCommon(s: Store, level: string)
    requires WellFormed(s) && level !in s.levels
    ensures LevelAssetsShared(s, level) == s.common
    ensures LevelAssets(s, level) == DefaultGroup
    ensures s.common.buckets != DefaultGroup.buckets ==> LevelAssetsShared(s, level) != LevelAssets(s, level)
  {
  }
}

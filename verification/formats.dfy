/** The format registry of the model cache: the extension of a path, the
    loader and the parser each extension selects, and the parsers, which
    normalise what a loader delivers into `{scene, animations}` and annotate
    the scene tree on the way. */
module Formats {

  import opened Values
  import opened Strings
  import opened SceneTree

  const JSON := "json"
  const GLB := "glb"
  const GLTF := "gltf"
  const FBX := "fbx"
  const OBJ := "obj"

  /** The extension table has no COLLADA entry, so `EXTENSIONS.COLLADA` reads
      as `undefined`; used as an object key it becomes the text "undefined". */
  const COLLADA: Option<string> := None

  /** What `new URL(path)` yields when it accepts the path: only the pathname
      is used (the query string and fragment are not part of it). */
  datatype Url = Url(pathname: string)

  /** `extractExtension`: the last `.`-separated part of the URL pathname when
      the path parses as a URL, of the path itself otherwise. */
  function ExtractExtension(path: string, parsedUrl: Option<Url>): (ext: string)
    ensures '.' !in ext
  {
    match parsedUrl
    case Some(url) => LastPart(url.pathname, '.')
    case None => LastPart(path, '.')
  }

  /** What the extension is taken from: the URL pathname or the path. */
  function ExtensionSource(path: string, parsedUrl: Option<Url>): string {
    match parsedUrl
    case Some(url) => url.pathname
    case None => path
  }

  /** The extension is the text after the last full stop of its source, is a
      suffix of that source, and is all of it when the source has no full
      stop. */
  lemma ExtensionIsFinalSegment(path: string, parsedUrl: Option<Url>)
    ensures var src := ExtensionSource(path, parsedUrl);
      var ext := ExtractExtension(path, parsedUrl);
      && |ext| <= |src| && ext == src[|src| - |ext|..]
      && ('.' !in src ==> ext == src)
      && (forall stem, last | src == stem + ['.'] + last && '.' !in last :: ext == last)
  {
    var src := ExtensionSource(path, parsedUrl);
    LastPartIsSuffix(src, '.');
    if '.' !in src {
      SplitWithoutSeparator(src, '.');
    }
    forall stem, last | src == stem + ['.'] + last && '.' !in last
      ensures ExtractExtension(path, parsedUrl) == last
    {
      LastPartAfterSeparator(stem, '.', last);
    }
  }

  /** A URL such as "https://host/dir/e.glb?x=1" has pathname "/dir/e.glb", so
      its query string never reaches the extension. */
  lemma UrlExtensionIgnoresQuery(path: string, dir: string, last: string)
    requires '.' !in last
    ensures ExtractExtension(path, Some(Url(dir + ['.'] + last))) == last
  {
    LastPartAfterSeparator(dir, '.', last);
  }

  /** The loader builders: three.js ObjectLoader (the default builder), and
      the glTF, FBX and OBJ/MTL builders. */
  datatype LoaderKind = ObjectLoader | GltfLoader | FbxLoader | ObjMtlLoader

  /** Call-time options the loader is configured with (`{ level }`). */
  datatype Options = Options(level: Option<string>)

  datatype Loader = Loader(kind: LoaderKind, options: Options)

  /** `loaders[extension] || DEFAULTbuildObjectLoader`. */
  function LoaderKindFor(ext: string): LoaderKind {
    if ext == JSON then ObjectLoader
    else if ext == GLB || ext == GLTF then GltfLoader
    else if ext == FBX then FbxLoader
    else if ext == OBJ then ObjMtlLoader
    else ObjectLoader
  }

  /** `getLoaderFromExtension`: builds the loader for the extension and always
      applies `setOptions(options)` to it. */
  function GetLoaderFromExtension(ext: string, options: Options): (l: Loader)
    ensures l.options == options
    ensures l.kind == GltfLoader <==> ext in {GLB, GLTF}
    ensures l.kind == FbxLoader <==> ext == FBX
    ensures l.kind == ObjMtlLoader <==> ext == OBJ
    ensures l.kind == ObjectLoader <==> ext !in {GLB, GLTF, FBX, OBJ}
  {
    Loader(LoaderKindFor(ext), options)
  }

  datatype ParserKind = DefaultParser | GlbParser | GltfParser | ColladaParser | FbxParser

  /** `getModelParserFromExtension`: a table keyed by json, glb, gltf, the
      COLLADA key and fbx, with `defaultParser` for everything else. */
  function ParserFor(ext: string): (p: ParserKind)
    ensures p == GlbParser <==> ext == GLB
    ensures p == GltfParser <==> ext == GLTF
    ensures p == FbxParser <==> ext == FBX
    ensures p == ColladaParser <==> ext == JsText(COLLADA)
    ensures p == DefaultParser <==> ext !in {GLB, GLTF, FBX, JsText(COLLADA)}
  {
    if ext == JSON then DefaultParser
    else if ext == GLB then GlbParser
    else if ext == GLTF then GltfParser
    else if ext == JsText(COLLADA) then ColladaParser
    else if ext == FBX then FbxParser
    else DefaultParser
  }

  /** The parser lookup is total, gives each listed extension its own parser,
      keys the collada parser by the text "undefined", and sends everything
      else (obj included) to the default parser. */
  lemma ParserTable(ext: string)
    ensures ParserFor(ext) == GlbParser <==> ext == "glb"
    ensures ParserFor(ext) == GltfParser <==> ext == "gltf"
    ensures ParserFor(ext) == FbxParser <==> ext == "fbx"
    ensures ParserFor(ext) == ColladaParser <==> ext == "undefined"
    ensures ParserFor(ext) == DefaultParser <==> ext !in {"glb", "gltf", "fbx", "undefined"}
  {
  }

  /** The loader and the parser are chosen from the same extension, and the
      glTF loader is chosen exactly when a glTF parser is. */
  lemma LoaderMatchesParser(ext: string, options: Options)
    ensures GetLoaderFromExtension(ext, options).kind == GltfLoader
      <==> ParserFor(ext) in {GlbParser, GltfParser}
  {
  }

  /** A glTF file as the glTF loader delivers it (`gltf.scene` may be missing
      when the file declares no scene). */
  datatype GltfFile = GltfFile(scene: Option<Node>, animations: seq<Clip>)

  /** What a loader hands to its `onLoad` callback: the glTF loader delivers a
      glTF record, every other loader a scene object. */
  datatype Loaded = FromGltf(file: GltfFile) | FromObject(root: Node)

  /** The canonical record a parser returns; `animations` is missing for the
      default parser. */
  datatype Parsed = Parsed(scene: Option<Node>, animations: Option<seq<Clip>>)

  /** glbParser's visitor: a mesh casts shadows. */
  function CastShadow(d: NodeData): NodeData {
    if IsMesh(d) then d.(castShadow := true) else d
  }

  /** colladaParser's visitor: a skinned mesh is never frustum culled. */
  function NoCulling(d: NodeData): NodeData {
    if IsSkinnedMesh(d) then d.(frustumCulled := false) else d
  }

  /** fbxParser's visitor: every material of a skinned mesh is skinned. */
  function SkinMaterials(d: NodeData): NodeData {
    if IsSkinnedMesh(d) then
      d.(materials := seq(|d.materials|, i requires 0 <= i < |d.materials| => d.materials[i].(skinning := true)))
    else d
  }

  /** Applies a parser to what the loader delivered. `None` means the parser
      throws (it destructures a `scene` that is not there and calls
      `traverse` on it); the load callback then never resolves. The one
      exception is the default parser on a glTF record, a pairing the
      dispatch never produces. */
  function Parse(parser: ParserKind, x: Loaded): (r: Option<Parsed>)
    ensures parser in {GlbParser, ColladaParser} ==>
      (r.Some? <==> x.FromGltf? && x.file.scene.Some?)
    ensures parser == FbxParser ==> (r.Some? <==> x.FromObject?)
    ensures parser == GltfParser ==> r.Some?
    ensures parser == DefaultParser && x.FromObject? ==> r == Some(Parsed(Some(x.root), None))
    ensures r.Some? ==> (r.value.animations.None? <==> parser == DefaultParser)
    ensures r.Some? && parser != GltfParser ==> r.value.scene.Some?
  {
    match parser
    case DefaultParser =>
      (match x
       case FromObject(root) => Some(Parsed(Some(root), None))
       // Not reachable (see LoaderMatchesParser), and the value is arbitrary:
       // `({scene})` never throws, but it would wrap the whole glTF record,
       // which is not a scene node.
       case FromGltf(_) => None)
    case GlbParser =>
      (match x
       case FromGltf(GltfFile(Some(scene), animations)) =>
         Some(Parsed(Some(Traverse(scene, CastShadow)), Some(animations)))
       case _ => None)
    case GltfParser =>
      (match x
       case FromGltf(file) => Some(Parsed(file.scene, Some(file.animations)))
       case FromObject(root) => Some(Parsed(None, Some(root.data.animations))))
    case ColladaParser =>
      (match x
       case FromGltf(GltfFile(Some(scene), animations)) =>
         Some(Parsed(Some(Traverse(scene, NoCulling)), Some(animations)))
       case _ => None)
    case FbxParser =>
      (match x
       case FromObject(root) =>
         Some(Parsed(Some(Traverse(root, SkinMaterials)), Some(root.data.animations)))
       case FromGltf(_) => None)
  }

  /** glbParser sets `castShadow` on every mesh node (skinned ones included),
      leaves every other field and every non-mesh node as it was, keeps the
      shape of the tree, and passes the animations through. */
  lemma GlbParserMarksMeshes(scene: Node, animations: seq<Clip>)
    ensures var r := Parse(GlbParser, FromGltf(GltfFile(Some(scene), animations)));
      && r.Some? && r.value.scene.Some? && r.value.animations == Some(animations)
      && var before := Flatten(scene);
         var after := Flatten(r.value.scene.value);
         && Outline(r.value.scene.value) == Outline(scene)
         && |after| == |before|
         && (forall i :: 0 <= i < |before| ==>
               && after[i].castShadow == (before[i].castShadow || IsMesh(before[i]))
               && after[i].(castShadow := before[i].castShadow) == before[i])
  {
    TraverseVisitsEveryNode(scene, CastShadow);
  }

  /** fbxParser marks the materials of skinned meshes as skinned and changes
      nothing else; its animations are read from the root object. */
  lemma FbxParserSkinsSkinnedMaterials(root: Node)
    ensures var r := Parse(FbxParser, FromObject(root));
      && r.Some? && r.value.scene.Some? && r.value.animations == Some(root.data.animations)
      && var before := Flatten(root);
         var after := Flatten(r.value.scene.value);
         && Outline(r.value.scene.value) == Outline(root)
         && |after| == |before|
         && (forall i :: 0 <= i < |before| ==>
               && |after[i].materials| == |before[i].materials|
               && after[i].(materials := before[i].materials) == before[i]
               && (forall j :: 0 <= j < |before[i].materials| ==>
                     after[i].materials[j] ==
                       if IsSkinnedMesh(before[i])
                       then before[i].materials[j].(skinning := true)
                       else before[i].materials[j]))
  {
    TraverseVisitsEveryNode(root, SkinMaterials);
  }

  /** colladaParser switches frustum culling off on skinned meshes only. */
  lemma ColladaParserUncullsSkinnedMeshes(scene: Node, animations: seq<Clip>)
    ensures var r := Parse(ColladaParser, FromGltf(GltfFile(Some(scene), animations)));
      && r.Some? && r.value.scene.Some? && r.value.animations == Some(animations)
      && var before := Flatten(scene);
         var after := Flatten(r.value.scene.value);
         && Outline(r.value.scene.value) == Outline(scene)
         && |after| == |before|
         && (forall i :: 0 <= i < |before| ==>
               && after[i].frustumCulled == (before[i].frustumCulled && !IsSkinnedMesh(before[i]))
               && after[i].(frustumCulled := before[i].frustumCulled) == before[i])
  {
    TraverseVisitsEveryNode(scene, NoCulling);
  }

  /** The default and glTF parsers only reshape: the scene object is kept as
      it is, and the default parser reports no animations. */
  lemma PassThroughParsers(root: Node, file: GltfFile)
    ensures Parse(DefaultParser, FromObject(root)) == Some(Parsed(Some(root), None))
    ensures Parse(GltfParser, FromGltf(file)) == Some(Parsed(file.scene, Some(file.animations)))
  {
  }

  /** The collada parser is reached only through the key "undefined", which
      selects the object loader; the object it gets has no `scene`, so it
      throws on every load. */
  lemma ColladaParserAlwaysThrows(path: string, parsedUrl: Option<Url>, options: Options, root: Node)
    requires ParserFor(ExtractExtension(path, parsedUrl)) == ColladaParser
    ensures GetLoaderFromExtension(ExtractExtension(path, parsedUrl), options).kind == ObjectLoader
    ensures Parse(ColladaParser, FromObject(root)).None?
  {
  }
}

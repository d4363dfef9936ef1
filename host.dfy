/** The pieces of webpack's compilation that the plugins read and write. */
module Host {
  import opened JsValues
  import opened ManifestBuilder

  /** The value handed to `JSON.stringify`: `null` (no manifest built yet) or
      an object. `JSON.stringify` drops `undefined`-valued keys, so the object
      holds only the manifest's defined entries. */
  datatype Json = Null | Object(members: map<string, string>)

  function ToJson(chunkManifest: Option<Manifest>): (j: Json)
    ensures chunkManifest.None? <==> j.Null?
    ensures chunkManifest.Some? ==>
              forall k :: k in j.members <==> k in chunkManifest.value && chunkManifest.value[k].Path?
  {
    match chunkManifest
    case None => Null
    case Some(m) => Object(Defined(m))
  }

  /** One compilation: its chunk table, its two asset-path resolvers, the
      output options the plugins read and override, the emitted assets (name
      to source text) and each chunk's `files` list. */
  class Compilation {
    const chunks: seq<Chunk>
    /** The main template's asset-path hook (`mainTemplate.hooks.assetPath`,
        or its `asset-path` waterfall before webpack 4). */
    const templateAssetPath: Resolver
    /** The compilation's own `asset-path` waterfall. */
    const assetPath: Resolver
    var filename: Option<string>
    var chunkFilename: Option<string>
    var assets: map<string, string>
    var files: seq<seq<string>>

    ghost predicate Valid()
      reads this
    {
      WellFormed(chunks) && |files| == |chunks|
    }

    constructor (chunks: seq<Chunk>, templateAssetPath: Resolver, assetPath: Resolver,
                 filename: Option<string>, chunkFilename: Option<string>)
      requires WellFormed(chunks)
      ensures Valid()
      ensures this.chunks == chunks
      ensures this.templateAssetPath == templateAssetPath && this.assetPath == assetPath
      ensures this.filename == filename && this.chunkFilename == chunkFilename
      ensures assets == map[] && files == seq(|chunks|, _ => [])
    {
      this.chunks := chunks;
      this.templateAssetPath := templateAssetPath;
      this.assetPath := assetPath;
      this.filename := filename;
      this.chunkFilename := chunkFilename;
      assets := map[];
      files := seq(|chunks|, _ => []);
    }
  }

  /** The `data` object html-webpack-plugin passes to its
      before-html-generation listeners. */
  class HtmlPluginData {
    var assets: map<string, string>

    constructor (assets: map<string, string>)
      ensures this.assets == assets
    {
      this.assets := assets;
    }
  }
}

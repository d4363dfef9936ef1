/** EntryManifestPlugin: the name-keyed predecessor of ChunkManifestPlugin,
    for webpack before version 4. */
module EntryManifest {
  import opened JsValues
  import opened StringReplace
  import opened ManifestBuilder
  import opened Host
  import opened RuntimePatch

  /** The constructor's `options` object; every field may be absent. */
  datatype Options = Options(filename: Option<string>, manifestVariable: Option<string>)

  /** The value Phase A writes into `outputOptions.chunkFilename`. */
  const Placeholder: string := "__ENTRY_MANIFEST__"

  class EntryManifestPlugin {
    const manifestFilename: string
    const manifestVariable: string
    /** `JSON.stringify`. */
    const stringify: Json -> string

    /** `options = options || {}`: a missing options object (`None`) behaves
        like an empty one; then each field falls back to its default. */
    constructor (options: Option<Options>, stringify: Json -> string)
      ensures var o := if options.Some? then options.value else Options(None, None);
              && manifestFilename == OrDefault(o.filename, "manifest.json")
              && manifestVariable == OrDefault(o.manifestVariable, "webpackManifest")
      ensures manifestFilename != "" && manifestVariable != ""
      ensures options.None? ==> manifestFilename == "manifest.json" && manifestVariable == "webpackManifest"
      ensures this.stringify == stringify
    {
      var o := if options.Some? then options.value else Options(None, None);
      manifestFilename := OrDefault(o.filename, "manifest.json");
      manifestVariable := OrDefault(o.manifestVariable, "webpackManifest");
      this.stringify := stringify;
    }

    /** Phase A (the require-ensure handler registered on `this-compilation`):
        with `outputOptions.filename` set, build the name-keyed manifest from the
        trigger chunk, override `chunkFilename` (it is never saved or restored)
        and register the manifest asset. The source is returned unchanged. */
    method InjectPlaceholder(comp: Compilation, source: string, trigger: nat, hash: string) returns (out: string)
      requires comp.Valid() && trigger < |comp.chunks|
      modifies comp`chunkFilename, comp`assets
      ensures out == source
      ensures !Truthy(comp.filename) ==>
                comp.chunkFilename == old(comp.chunkFilename) && comp.assets == old(comp.assets)
      ensures Truthy(comp.filename) ==>
                var m := BuildManifest(Walk(Entry, comp.filename.value, hash, comp.assetPath), comp.chunks, trigger);
                && comp.chunkFilename == Some(Placeholder)
                && comp.assets == old(comp.assets)[manifestFilename := stringify(ToJson(Some(m)))]
    {
      if Truthy(comp.filename) {
        var m := BuildManifest(Walk(Entry, comp.filename.value, hash, comp.assetPath), comp.chunks, trigger);
        comp.chunkFilename := Some(Placeholder);
        comp.assets := comp.assets[manifestFilename := stringify(ToJson(Some(m)))];
      }
      out := source;
    }

    /** Phase B (the require-ensure handler registered on `compilation`): only
        the first quoted placeholder becomes the manifest lookup; a source
        without it comes back unchanged. */
    method SubstitutePlaceholder(source: string, chunkIdVar: string) returns (out: string)
      ensures out == ReplacePlaceholder(Placeholder, manifestVariable, chunkIdVar, source)
      ensures (forall j: nat :: !MatchAt(source, Quoted(Placeholder), j)) ==> out == source
    {
      out := ReplacePlaceholder(Placeholder, manifestVariable, chunkIdVar, source);
    }
  }
}

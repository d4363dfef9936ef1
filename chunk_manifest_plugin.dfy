/** ChunkManifestPlugin: moves the chunk-id to chunk-file mapping out of the
    bootstrap source into a separately emitted manifest, for webpack 4 (hooks)
    and for earlier webpack versions (`plugin(...)` callbacks). */
module ChunkManifest {
  import opened JsValues
  import opened StringReplace
  import opened ManifestBuilder
  import opened Host
  import opened RuntimePatch

  /** The constructor's `options` object; every field may be absent. */
  datatype Options = Options(filename: Option<string>, manifestVariable: Option<string>, inlineManifest: Option<bool>)

  /** The value Phase A writes into `outputOptions.chunkFilename`. */
  const Placeholder: string := "__CHUNK_MANIFEST__"

  /** The whole Phase B rewrite of the require-ensure source. */
  function RewriteSource(hooksSupported: bool, variable: string, chunkIdVar: string, source: string): (r: string)
    ensures ((forall j: nat :: !MatchAt(source, Quoted(Placeholder), j)) &&
             (hooksSupported ==> forall j: nat :: !MatchAt(source, JsonpScriptSrc, j)))
            ==> r == source
  {
    var once := ReplacePlaceholder(Placeholder, variable, chunkIdVar, source);
    if hooksSupported then ReplaceScriptSrc(variable, chunkIdVar, once) else once
  }

  /** Host code that puts the quoted placeholder in front of the rest of the
      source gets the manifest lookup there instead; with hooks, the
      `jsonpScriptSrc(chunkId)` rewrite then runs on the result. */
  lemma RenderedPlaceholderResolved(hooksSupported: bool, variable: string, chunkIdVar: string, rest: string)
    ensures RewriteSource(hooksSupported, variable, chunkIdVar, Quoted(Placeholder) + rest) ==
            var looked := Lookup(variable, chunkIdVar) + rest;
            if hooksSupported then ReplaceScriptSrc(variable, chunkIdVar, looked) else looked
  {
    LaterPlaceholdersKept(Placeholder, variable, chunkIdVar, rest);
  }

  class ChunkManifestPlugin {
    const manifestFilename: string
    const manifestVariable: string
    /** Only decides whether the inline-manifest listener is registered with
        html-webpack-plugin; listener registration is not part of this model. */
    const inlineManifest: bool
    /** `JSON.stringify`. */
    const stringify: Json -> string

    /** Chosen once in `apply`: does the compiler expose `hooks`? */
    var hooksSupported: bool
    /** The closure variables shared by the Phase A and Phase B handlers. */
    var oldChunkFilename: Option<string>
    var chunkManifest: Option<Manifest>

    /** Defaults use `||`: an absent or empty field takes the default. */
    constructor (options: Options, stringify: Json -> string)
      ensures manifestFilename == OrDefault(options.filename, "manifest.json")
      ensures manifestVariable == OrDefault(options.manifestVariable, "webpackManifest")
      ensures inlineManifest == OrFalse(options.inlineManifest)
      ensures manifestFilename != "" && manifestVariable != ""
      ensures this.stringify == stringify
      ensures oldChunkFilename == None && chunkManifest == None
    {
      manifestFilename := OrDefault(options.filename, "manifest.json");
      manifestVariable := OrDefault(options.manifestVariable, "webpackManifest");
      inlineManifest := OrFalse(options.inlineManifest);
      this.stringify := stringify;
      hooksSupported := false;
      oldChunkFilename := None;
      chunkManifest := None;
    }

    /** `apply`: probe the compiler once and start with both closure variables `null`. */
    method Apply(compilerHasHooks: bool)
      modifies this
      ensures hooksSupported == compilerHasHooks
      ensures oldChunkFilename == None && chunkManifest == None
    {
      hooksSupported := compilerHasHooks;
      oldChunkFilename := None;
      chunkManifest := None;
    }

    /** Which `registerChunk` reduction Phase A runs. */
    function WalkVariant(): Variant
      reads this
    {
      if hooksSupported then Webpack4 else Legacy
    }

    /** Phase A (the require-ensure handler registered on `this-compilation`):
        with a file name template configured, build the manifest from the
        trigger chunk, save and override `chunkFilename`, register the manifest
        asset and add it to the trigger chunk's files. The source is returned
        unchanged; without a template nothing else happens either. */
    method InjectPlaceholder(comp: Compilation, source: string, trigger: nat, hash: string) returns (out: string)
      requires comp.Valid() && trigger < |comp.chunks|
      modifies this`oldChunkFilename, this`chunkManifest, comp`chunkFilename, comp`assets, comp`files
      ensures comp.Valid() && out == source
      ensures var filename := Or(old(comp.chunkFilename), comp.filename);
              !Truthy(filename) ==>
                && oldChunkFilename == old(oldChunkFilename) && chunkManifest == old(chunkManifest)
                && comp.chunkFilename == old(comp.chunkFilename)
                && comp.assets == old(comp.assets) && comp.files == old(comp.files)
      ensures var filename := Or(old(comp.chunkFilename), comp.filename);
              Truthy(filename) ==>
                var m := BuildManifest(Walk(WalkVariant(), filename.value, hash, comp.templateAssetPath), comp.chunks, trigger);
                && chunkManifest == Some(m)
                && oldChunkFilename == old(comp.chunkFilename)
                && comp.chunkFilename == Some(Placeholder)
                && comp.assets == old(comp.assets)[manifestFilename := stringify(ToJson(Some(m)))]
                && comp.files == old(comp.files)[trigger := old(comp.files)[trigger] + [manifestFilename]]
    {
      var filename := Or(comp.chunkFilename, comp.filename);
      if Truthy(filename) {
        var m := BuildManifest(Walk(WalkVariant(), filename.value, hash, comp.templateAssetPath), comp.chunks, trigger);
        chunkManifest := Some(m);
        oldChunkFilename := comp.chunkFilename;
        comp.chunkFilename := Some(Placeholder);
        comp.assets := comp.assets[manifestFilename := stringify(ToJson(Some(m)))];
        comp.files := comp.files[trigger := comp.files[trigger] + [manifestFilename]];
      }
      out := source;
    }

    /** Phase B (the require-ensure handler registered on `compilation`):
        restore `chunkFilename` when the saved value is truthy, then rewrite
        the first placeholder (and, with hooks, the first `jsonpScriptSrc` call). */
    method SubstitutePlaceholder(comp: Compilation, source: string, chunkIdVar: string) returns (out: string)
      modifies comp`chunkFilename
      ensures comp.chunkFilename == if Truthy(oldChunkFilename) then oldChunkFilename else old(comp.chunkFilename)
      ensures out == RewriteSource(hooksSupported, manifestVariable, chunkIdVar, source)
    {
      if Truthy(oldChunkFilename) {
        comp.chunkFilename := oldChunkFilename;
      }
      out := RewriteSource(hooksSupported, manifestVariable, chunkIdVar, source);
    }

    /** One run of the require-ensure waterfall: Phase A's handler, then the
        host's code generation between the two handlers (`render`, given the
        current `chunkFilename` and the source so far; it is what writes the
        quoted placeholder), then Phase B's handler on its output. With a
        template configured, the host renders with the placeholder, and a
        truthy `chunkFilename` is back in place afterwards while an absent or
        empty one is left overridden by the placeholder. Without a template,
        the host renders with the unchanged `chunkFilename`, and Phase B still
        restores whatever an earlier call saved. */
    method RequireEnsure(comp: Compilation, source: string, trigger: nat, hash: string, chunkIdVar: string,
                         render: (Option<string>, string) -> string)
      returns (out: string)
      requires comp.Valid() && trigger < |comp.chunks|
      modifies this`oldChunkFilename, this`chunkManifest, comp`chunkFilename, comp`assets, comp`files
      ensures comp.Valid()
      ensures var configured := Truthy(Or(old(comp.chunkFilename), comp.filename));
              configured ==>
                out == RewriteSource(hooksSupported, manifestVariable, chunkIdVar, render(Some(Placeholder), source))
      ensures var configured := Truthy(Or(old(comp.chunkFilename), comp.filename));
              !configured ==>
                out == RewriteSource(hooksSupported, manifestVariable, chunkIdVar, render(old(comp.chunkFilename), source))
      ensures var configured := Truthy(Or(old(comp.chunkFilename), comp.filename));
              configured ==>
                comp.chunkFilename == if Truthy(old(comp.chunkFilename)) then old(comp.chunkFilename) else Some(Placeholder)
      ensures var configured := Truthy(Or(old(comp.chunkFilename), comp.filename));
              !configured ==>
                comp.chunkFilename == if Truthy(old(oldChunkFilename)) then old(oldChunkFilename) else old(comp.chunkFilename)
      ensures var filename := Or(old(comp.chunkFilename), comp.filename);
              Truthy(filename) ==>
                var m := BuildManifest(Walk(WalkVariant(), filename.value, hash, comp.templateAssetPath), comp.chunks, trigger);
                && chunkManifest == Some(m)
                && oldChunkFilename == old(comp.chunkFilename)
                && comp.assets == old(comp.assets)[manifestFilename := stringify(ToJson(Some(m)))]
                && comp.files == old(comp.files)[trigger := old(comp.files)[trigger] + [manifestFilename]]
      ensures var filename := Or(old(comp.chunkFilename), comp.filename);
              !Truthy(filename) ==>
                && oldChunkFilename == old(oldChunkFilename) && chunkManifest == old(chunkManifest)
                && comp.assets == old(comp.assets) && comp.files == old(comp.files)
    {
      var placed := InjectPlaceholder(comp, source, trigger, hash);
      var rendered := render(comp.chunkFilename, placed);
      out := SubstitutePlaceholder(comp, rendered, chunkIdVar);
    }

    /** The html-webpack-plugin listener: store the inline script under the
        manifest variable's name; no other asset changes. */
    method InlineManifestCallback(data: HtmlPluginData)
      modifies data
      ensures data.assets == old(data.assets)[manifestVariable := InlineScript(manifestVariable, stringify(ToJson(chunkManifest)))]
    {
      data.assets := data.assets[manifestVariable := InlineScript(manifestVariable, stringify(ToJson(chunkManifest)))];
    }
  }
}

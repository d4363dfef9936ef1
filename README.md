# chunk-manifest-webpack-plugin, modelled in Dafny

The repository holds two webpack plugins, `ChunkManifestPlugin` and its older sibling
`EntryManifestPlugin`. Both take the mapping from chunk ids (or names) to chunk files out of
webpack's generated bootstrap code and emit it as a separate JSON manifest asset. The bootstrap
then looks each chunk up in a `window` variable. The plugins work in two phases on webpack's
`require-ensure` hook:

- **Phase A.** Walk the chunk graph from the trigger chunk with `registerChunk` to build the
  manifest, override `outputOptions.chunkFilename` with a placeholder token and register the
  manifest asset.
- **Phase B.** Restore the saved `chunkFilename` and rewrite the quoted placeholder, plus webpack
  4's `jsonpScriptSrc(chunkId)` call, into a lookup in the manifest variable.

The model has these modules:

- `JsValues` (`js_values.dfy`): absent option fields, JavaScript truthiness of strings, `||`
  as the plugins use it for defaults, and the `in` operator on a plain object, which also answers
  true for the property names every object inherits from `Object.prototype`.
- `StringReplace` (`replace_first.dfy`): `String.prototype.replace` with a string pattern, which
  replaces only the first occurrence.
- `ManifestBuilder` (`manifest_builder.dfy`): the chunk table, and the three `registerChunk`
  reductions as one pair of mutually recursive functions, `Register` and `Fold`. They are
  parameterised by a `Variant`:
  - `Legacy`: ChunkManifestPlugin before webpack 4;
  - `Webpack4`: ChunkManifestPlugin with hooks;
  - `Entry`: EntryManifestPlugin.

  The walk terminates because every step either stops or adds a key of the finite table.
  Its memo test is `key in manifest` as JavaScript evaluates it on a manifest that starts as
  `{}`, so a key such as `"constructor"` or `"toString"` counts as already registered.
- `ManifestReach` (`manifest_reach.dfy`): what one Phase A manifest contains, in terms of
  reachability from the trigger chunk. A chunk counts as reachable when a path of edges leads
  to it from the trigger through chunks whose keys are not inherited property names, because
  the walk enters no other chunk.
- `ManifestExamples` (`manifest_examples.dfy`): three small chunk graphs worked through.
- `Host` (`host.dfy`): the webpack objects the plugins write:
  - a `Compilation` class with its two asset-path resolvers, the output options, the assets and
    each chunk's `files`;
  - html-webpack-plugin's `data` object;
  - the value handed to `JSON.stringify`.
- `RuntimePatch` (`runtime_patch.dfy`): the text spliced into the bootstrap and the inline
  `<script>`.
- `ChunkManifest` (`chunk_manifest_plugin.dfy`) and `EntryManifest`
  (`entry_manifest_plugin.dfy`): the plugin classes. Their methods are the Phase A and Phase B
  handlers and the inline-manifest listener. They update the closure variables
  `oldChunkFilename` and `chunkManifest`, which are fields here, and the compilation in place.

A chunk is a record holding:

- its `id` and `name`;
- its `entry` flag;
- the result of its `hasRuntime()` method, or `None` when the chunk object has no such method;
- its child chunks, as indices into the compilation's chunk table. An index stands for the
  chunk object's identity.

Ids are strings because they are used as JavaScript object keys.

The asset-path resolvers (webpack's template engine) and `JSON.stringify` are uninterpreted
function values. ChunkManifestPlugin calls the main template's `asset-path` hook and
EntryManifestPlugin the compilation's own `asset-path` waterfall, so the compilation holds both
as constants; `stringify` is a constant of each plugin. The JSON value holds the manifest without
its `undefined` entries, because `JSON.stringify` drops them.

Several behaviours of the code differ from what a user of the plugins would expect. The model
follows the code:

- **The restore in Phase B depends on truthiness.** Phase B restores `chunkFilename` only when the
  saved value is truthy. A build that configures only `filename` therefore keeps the
  `__CHUNK_MANIFEST__` placeholder as its `chunkFilename` after the waterfall
  (`ChunkManifest.ChunkManifestPlugin.RequireEnsure`).
- **A stale saved value is still restored.** The saved value survives across calls. When Phase A
  does nothing, Phase B still restores whatever an earlier call saved.
- **Only the first placeholder is replaced.** Phase B replaces only the first occurrence of the
  quoted placeholder; a second occurrence stays in the source
  (`RuntimePatch.SecondPlaceholderSurvives`).
- **EntryManifestPlugin never restores `chunkFilename`.**
- **Undefined entries do not reach the JSON.** Entries whose value is `undefined` do not appear in
  the emitted JSON at all, rather than as `null`.
- **The name-keyed walk can skip chunks.** The name-keyed walk memoises by name, so two unnamed
  siblings share the key `"undefined"`. The walk then skips the second one and everything only it
  leads to (`ManifestExamples.UnnamedSiblingHidesDescendant`).
- **Inherited property names count as registered.** The memo test `key in manifest` is true for
  names such as `"constructor"` on the fresh manifest `{}`. A chunk with such a key is never
  stored, and neither is anything only it leads to
  (`ManifestExamples.InheritedNameHidesDescendant`). A trigger with such a key leaves the
  manifest empty.
- **Each Phase A call replaces the manifest.** Every call builds a new manifest from `{}` and
  overwrites both `chunkManifest` and the manifest asset. With several runtime chunks, the
  emitted manifest holds only the chunks of the last trigger; it is never extended
  (`ChunkManifest.ChunkManifestPlugin.InjectPlaceholder`).

## Model

| member | source | states |
|---|---|---|
| JsValues.Or | lib/ChunkManifestPlugin.js:70-72 | `a \|\| b` yields `a` when it is truthy and `b` otherwise; the result is truthy iff either operand is |
| JsValues.OrDefault | lib/ChunkManifestPlugin.js:23-24 | a field's value is kept when truthy; an absent or empty field takes the default; a non-empty default gives a non-empty result |
| JsValues.OrFalse | lib/ChunkManifestPlugin.js:25 | `inlineManifest \|\| false` is true exactly when the option is present and true |
| JsValues.EmptyStringIsAbsent | lib/ChunkManifestPlugin.js:23-24 | an empty string behaves exactly like an absent field and yields the default |
| StringReplace.IndexOfFrom | lib/ChunkManifestPlugin.js:157-160 | the result is at or after the start, is a match when it fits in the string, and no earlier position from the start matches |
| StringReplace.IndexOf | lib/ChunkManifestPlugin.js:157-160 | a found index is the least position where the pattern occurs; absent means it occurs nowhere |
| StringReplace.ReplaceFirst | lib/ChunkManifestPlugin.js:157-183 | without an occurrence the string is unchanged; otherwise the first occurrence is replaced and everything before and after it is kept |
| StringReplace.OnlyFirstReplaced | lib/ChunkManifestPlugin.js:200-201 | a string starting with the pattern has that occurrence replaced and its whole remainder kept, later occurrences included |
| ManifestBuilder.ValueOf | lib/ChunkManifestPlugin.js:76-88 | a chunk's value is `undefined` iff it has runtime (`hasRuntime()` when present, else `entry`, always `entry` for EntryManifestPlugin); otherwise it is the resolver's path for the file name, hash and chunk |
| ManifestBuilder.Edges | lib/ChunkManifestPlugin.js:89 | the chunks folded over next are all in the chunk table: every chunk for webpack 4, the chunk's children otherwise |
| ManifestBuilder.Register | lib/ChunkManifestPlugin.js:112-124 | when the key is `in` the manifest (an own key or an `Object.prototype` name) the manifest comes back unchanged; otherwise the key maps to the chunk's value; no existing entry is removed or overwritten; a key that is no inherited name is present afterwards; terminates on any graph |
| ManifestBuilder.Fold | lib/ChunkManifestPlugin.js:123 | folding `registerChunk` over a list keeps every existing entry and makes the key of every listed chunk present, inherited property names aside |
| ManifestBuilder.BuildManifest | lib/ChunkManifestPlugin.js:74-90 | the manifest of one Phase A call starts as `{}`: a trigger keyed by an inherited property name leaves it empty; any other trigger's key maps to its value |
| ManifestBuilder.Defined | lib/ChunkManifestPlugin.js:94-96 | the serialised manifest holds exactly the entries whose value is a path, with those paths |
| ManifestReach.RegisterSound | lib/ChunkManifestPlugin.js:112-124 | started from a chunk that a set closed under the walk's edges holds (or that the walk skips on sight), every entry the walk adds is the key and value of a chunk of that set, and never an inherited property name |
| ManifestReach.FoldSound | lib/ChunkManifestPlugin.js:123 | folding over chunks held by a closed set, or skipped on sight, adds only entries of chunks of that set |
| ManifestReach.RegisterClosed | lib/ChunkManifestPlugin.js:112-124 | with unique keys, every chunk the walk newly registers has the keys of all its edges registered too, inherited property names aside |
| ManifestReach.FoldClosed | lib/ChunkManifestPlugin.js:123 | with unique keys, every chunk a fold newly registers has all its edges' keys registered, inherited property names aside |
| ManifestReach.ReachSetClosed | lib/ChunkManifestPlugin.js:123 | the chunks the walk can reach from the trigger are closed under its edges, and hold the trigger unless its key is an inherited property name |
| ManifestReach.PathRegistered | lib/ChunkManifestPlugin.js:112-124 | with unique keys, the chunk at the end of any path from the trigger through keys that are no inherited property names has its key in the manifest |
| ManifestReach.ManifestWithinReach | lib/EntryManifestPlugin.js:21-33 | for any keys, every manifest entry is the key and value of a chunk the walk can reach from the trigger, and no entry is an inherited property name |
| ManifestReach.ManifestKeysAreReachable | lib/ChunkManifestPlugin.js:112-124 | with unique keys, the manifest's key set is exactly the keys of the chunks reachable from the trigger through keys that are no inherited property names, each mapped to its own chunk's value |
| ManifestReach.Webpack4ManifestKeys | lib/ChunkManifestPlugin.js:74-90 | the webpack 4 manifest holds exactly the ids of the compilation's chunks that are no inherited property names, whether ids are unique or not; a trigger whose id is such a name leaves it empty |
| ManifestReach.ManifestKeysInTable | lib/ChunkManifestPlugin.js:74-90 | every manifest key is the key of a chunk of the compilation and no inherited property name |
| ManifestReach.EmittedEntries | lib/ChunkManifestPlugin.js:94-96 | with unique keys, a chunk the walk can reach appears in the emitted JSON iff it has no runtime, and no key outside the reachable chunks' keys appears |
| ManifestReach.EmittedWithinReach | lib/ChunkManifestPlugin.js:94-96 | for any keys, the emitted JSON holds no key outside the keys of the chunks the walk can reach |
| ManifestExamples.ChainManifest | lib/ChunkManifestPlugin.js:112-124 | entry A loading B loading C gives A `undefined`, and B and C their resolved paths |
| ManifestExamples.UnnamedSiblingsReach | lib/EntryManifestPlugin.js:32 | in the two-unnamed-siblings graph, chunk 3 is reachable from the entry through the second sibling |
| ManifestExamples.UnnamedSiblingsManifest | lib/EntryManifestPlugin.js:21-33 | the name-keyed manifest of the two-unnamed-siblings graph has exactly the keys "main" and "undefined" |
| ManifestExamples.UnnamedSiblingHidesDescendant | lib/EntryManifestPlugin.js:21-33 | two unnamed siblings share the key "undefined", so chunk 3, reachable only through the second, is missing from the manifest |
| ManifestExamples.InheritedNameHidesDescendant | lib/EntryManifestPlugin.js:21-33 | a child named "constructor" counts as registered on `{}`: the manifest is just the entry with `undefined`, its grandchild "x" is missing, and the emitted JSON is empty |
| Host.ToJson | lib/ChunkManifestPlugin.js:95 | `chunkManifest` still `null` serialises as `null`; a manifest serialises as an object holding exactly its defined keys |
| Host.Compilation.constructor | lib/ChunkManifestPlugin.js:70-90 | a compilation starts with the given chunk table, the main template's and its own asset-path resolvers, the given output file names, no assets and empty `files` lists |
| Host.HtmlPluginData.constructor | lib/ChunkManifestPlugin.js:138-140 | the listener's `data` object carries the given assets |
| RuntimePatch.Quoted | lib/ChunkManifestPlugin.js:159 | the placeholder as a quoted JavaScript literal: the token between two double quotes |
| RuntimePatch.Lookup | lib/ChunkManifestPlugin.js:160 | `window["<variable>"][<chunkIdVar>]`: its length, with the variable and the chunk-id expression at their places |
| RuntimePatch.ReplacePlaceholder | lib/ChunkManifestPlugin.js:157-160 | a source without the quoted placeholder comes back unchanged |
| RuntimePatch.ReplaceScriptSrc | lib/ChunkManifestPlugin.js:177-183 | a source without `jsonpScriptSrc(chunkId)` comes back unchanged |
| RuntimePatch.LaterPlaceholdersKept | lib/ChunkManifestPlugin.js:200-201 | a source starting with the placeholder becomes the lookup followed by the untouched rest |
| RuntimePatch.SecondPlaceholderSurvives | lib/EntryManifestPlugin.js:45-46 | with two placeholders in a row, the second is still present right after the lookup |
| RuntimePatch.InlineScript | lib/ChunkManifestPlugin.js:139 | `<script>window["<variable>"] = <json></script>`: its length and each of its five parts at its place |
| ChunkManifest.RewriteSource | lib/ChunkManifestPlugin.js:157-183 | a source with neither the placeholder nor (with hooks) `jsonpScriptSrc(chunkId)` comes back unchanged |
| ChunkManifest.RenderedPlaceholderResolved | lib/ChunkManifestPlugin.js:157-183 | a source whose host code starts with the quoted placeholder has the manifest lookup there instead, followed by the rest; with hooks the `jsonpScriptSrc(chunkId)` rewrite then runs on that |
| ChunkManifest.ChunkManifestPlugin.constructor | lib/ChunkManifestPlugin.js:22-26 | file name and variable default to "manifest.json" and "webpackManifest" when falsy and are never empty; `inlineManifest` is true only when given as true |
| ChunkManifest.ChunkManifestPlugin.Apply | lib/ChunkManifestPlugin.js:53-56 | records whether the compiler has hooks and starts both closure variables as `null` |
| ChunkManifest.ChunkManifestPlugin.InjectPlaceholder | lib/ChunkManifestPlugin.js:70-99 | returns the source unchanged. With `chunkFilename \|\| filename` falsy it changes nothing. Otherwise it builds the manifest with that template and the main template's resolver, saves and overrides `chunkFilename`, sets the manifest asset to its JSON and appends the manifest file name to the trigger's files, and nothing else changes |
| ChunkManifest.ChunkManifestPlugin.SubstitutePlaceholder | lib/ChunkManifestPlugin.js:153-183 | restores `chunkFilename` exactly when the saved value is truthy and returns the rewritten source |
| ChunkManifest.ChunkManifestPlugin.RequireEnsure | lib/ChunkManifestPlugin.js:109-131 | Phase A, the host's rendering, then Phase B. With a template, the host renders with `chunkFilename` set to the placeholder and the output is that rendering rewritten. Afterwards a truthy `chunkFilename` is back while an unset one stays the placeholder, `chunkManifest` is the walk's manifest, the saved value is the old `chunkFilename`, the manifest asset holds its JSON and the trigger's files end with the manifest file name. Without a template, the host renders with the unchanged `chunkFilename`, only a value saved by an earlier call is restored, and the closure variables, assets and files are unchanged |
| ChunkManifest.ChunkManifestPlugin.InlineManifestCallback | lib/ChunkManifestPlugin.js:138-141 | stores the inline script of the current manifest's JSON under the manifest variable and changes no other asset |
| EntryManifest.EntryManifestPlugin.constructor | lib/EntryManifestPlugin.js:3-7 | a missing options object acts as `{}`; falsy fields take "manifest.json" and "webpackManifest" |
| EntryManifest.EntryManifestPlugin.InjectPlaceholder | lib/EntryManifestPlugin.js:16-40 | returns the source. With `filename` falsy nothing changes. Otherwise the name-keyed manifest is built from `filename` alone with the compilation's own resolver, `chunkFilename` becomes `__ENTRY_MANIFEST__` without being saved, and the asset is set |
| EntryManifest.EntryManifestPlugin.SubstitutePlaceholder | lib/EntryManifestPlugin.js:44-47 | only the first quoted `__ENTRY_MANIFEST__` becomes the lookup; a source without it comes back unchanged; `chunkFilename` is not touched |

## Left out

- Hook registration is not modelled, because it is webpack's registration API and carries no
  logic of the plugins. This covers `hooks.*.tap`, `plugin(...)`, the `hooksSupported` probe and
  the registration order (lib/ChunkManifestPlugin.js:33-35, 210-218; lib/EntryManifestPlugin.js:15,
  43). The probe's result is the boolean given to `Apply`. The order of the two handlers is
  `RequireEnsure`; the host's code generation between them is a function parameter `render` of it.
- The asset-path resolvers (`mainTemplate.hooks.assetPath.call`, the main template's and the
  compilation's `applyPluginsWaterfall("asset-path")`) are webpack's template engine, so they are
  uninterpreted function values of the compilation.
- `RawSource` wrappers are library objects; an asset is its string content.
- `JSON.stringify` at byte level (escaping, key order) is not modelled. The serialiser is an
  uninterpreted function applied to the map of defined entries.
- `$` substitution patterns in `replace` replacement strings are not modelled. The manifest
  variable and the chunk-id expression are taken to contain no `$`.
- html-webpack-plugin's `callback(null, ...)` continuation (lib/ChunkManifestPlugin.js:140) is
  not modelled; it only passes control back to the host.
- index.d.ts is not modelled; it holds type declarations only.
- ChunkManifest.ChunkManifestPlugin.constructor: an explicit `null` options object, which throws
  a `TypeError` in the source, is not modelled. Only absent or present fields are.
- ManifestReach.ManifestKeysAreReachable: the "exactly the reachable keys" direction requires
  unique keys. The walk memoises by key, so with a shared key it can skip a reachable chunk; the
  other direction holds for any keys (`ManifestReach.ManifestWithinReach`).
- ManifestReach.EmittedEntries: the "appears iff it has no runtime" direction requires unique
  keys, for the same reason (`ManifestExamples.UnnamedSiblingHidesDescendant` is an instance).
- The legacy handlers read `this.outputOptions` of the main template and the webpack 4 ones read
  `compilation.outputOptions`. Both are the same object in webpack, so the model has one.
- Chunk ids are strings. The coercion of numeric ids to object keys is not modelled.

/** The `registerChunk` reduction: a depth-first walk of the chunk graph that
    fills the manifest, memoised by key presence so that it stops on cycles
    and diamonds. */
module ManifestBuilder {
  import opened JsValues

  /** A chunk of the compilation. `hasRuntime` is `Some(b)` when the chunk
      object has a `hasRuntime()` method returning `b`, `None` when it has none.
      `chunks` lists the chunk's child chunks as indices into the compilation's
      chunk table (the table index stands for the chunk object's identity). */
  datatype Chunk = Chunk(id: string, name: string, entry: bool, hasRuntime: Option<bool>, chunks: seq<nat>)

  /** The three `registerChunk` reductions of the repository:
      Legacy   - ChunkManifestPlugin before webpack 4: key `c.id`, follows `c.chunks`;
      Webpack4 - ChunkManifestPlugin with hooks: key `c.id`, folds over all of `compilation.chunks`;
      Entry    - EntryManifestPlugin: key `c.name`, follows `c.chunks`, runtime test is `c.entry`. */
  datatype Variant = Legacy | Webpack4 | Entry

  /** A manifest value: `undefined` for a chunk that is never fetched through
      the manifest, otherwise the chunk's resolved file path. */
  datatype Value = Undefined | Path(path: string)

  type Manifest = map<string, Value>

  /** webpack's asset-path template engine: (template, hash, chunk) to path. */
  type Resolver = (string, string, Chunk) -> string

  /** Everything one walk needs besides the graph: the variant, the file name
      template, the compilation hash and the asset-path resolver. */
  datatype Walk = Walk(variant: Variant, filename: string, hash: string, assetPath: Resolver)

  /** The manifest key of a chunk. */
  function Key(w: Walk, c: Chunk): string
  {
    if w.variant.Entry? then c.name else c.id
  }

  /** `typeof c.hasRuntime === "function" ? c.hasRuntime() : c.entry`, or just
      `c.entry` in EntryManifestPlugin. */
  predicate HasRuntime(w: Walk, c: Chunk)
  {
    if w.variant.Entry? || c.hasRuntime.None? then c.entry else c.hasRuntime.value
  }

  /** The value `registerChunk` stores for a chunk it sees for the first time. */
  function ValueOf(w: Walk, c: Chunk): (v: Value)
    ensures v.Undefined? <==> HasRuntime(w, c)
    ensures v.Path? ==> v.path == w.assetPath(w.filename, w.hash, c)
  {
    if HasRuntime(w, c) then Undefined else Path(w.assetPath(w.filename, w.hash, c))
  }

  /** Every child index names a chunk of the table. */
  ghost predicate WellFormed(g: seq<Chunk>)
  {
    forall i, k :: 0 <= i < |g| && 0 <= k < |g[i].chunks| ==> g[i].chunks[k] < |g|
  }

  /** `[0, 1, ..., n - 1]`: the whole chunk table in its order. */
  function AllChunks(n: nat): (s: seq<nat>)
    ensures |s| == n && forall j :: 0 <= j < n ==> s[j] == j
  {
    seq(n, j => j)
  }

  /** The chunks `registerChunk` folds over after registering chunk `i`. */
  function Edges(w: Walk, g: seq<Chunk>, i: nat): (cs: seq<nat>)
    requires WellFormed(g) && i < |g|
    ensures forall c :: c in cs ==> c < |g|
  {
    if w.variant.Webpack4? then AllChunks(|g|) else g[i].chunks
  }

  /** The keys of all chunks of the table. */
  function KeySet(w: Walk, g: seq<Chunk>): set<string>
  {
    set i | 0 <= i < |g| :: Key(w, g[i])
  }

  /** The termination measure of the walk: how many keys of the table are
      not yet in the manifest. */
  function Unregistered(w: Walk, g: seq<Chunk>, m: Manifest): nat
  {
    |KeySet(w, g) - m.Keys|
  }

  lemma UnregisteredMonotone(w: Walk, g: seq<Chunk>, m: Manifest, m': Manifest)
    requires m.Keys <= m'.Keys
    ensures Unregistered(w, g, m') <= Unregistered(w, g, m)
  {
    var a, b := KeySet(w, g) - m'.Keys, KeySet(w, g) - m.Keys;
    assert b == a + (b - a);
  }

  lemma UnregisteredShrinks(w: Walk, g: seq<Chunk>, m: Manifest, i: nat, v: Value)
    requires i < |g| && Key(w, g[i]) !in m
    ensures Unregistered(w, g, m[Key(w, g[i]) := v]) < Unregistered(w, g, m)
  {
    var k := Key(w, g[i]);
    assert k in KeySet(w, g);
    assert KeySet(w, g) - m[k := v].Keys == (KeySet(w, g) - m.Keys) - {k};
  }

  /** `r` keeps every entry of `m`: nothing is removed or overwritten. */
  ghost predicate Extends(m: Manifest, r: Manifest)
  {
    m.Keys <= r.Keys && forall k :: k in m ==> r[k] == m[k]
  }

  lemma ExtendsTransitive(a: Manifest, b: Manifest, c: Manifest)
    requires Extends(a, b) && Extends(b, c)
    ensures Extends(a, c)
  {
  }

  /** `registerChunk(manifest, c)`: when `key in manifest` holds (an own key,
      or a name every object inherits from `Object.prototype`) the manifest is
      returned as it is and the walk stops there; otherwise the chunk's value
      is stored and the walk goes on over its edges. Existing entries are
      never overwritten. */
  function Register(w: Walk, g: seq<Chunk>, m: Manifest, i: nat): (r: Manifest)
    requires WellFormed(g) && i < |g|
    ensures HasProperty(m, Key(w, g[i])) ==> r == m
    ensures Extends(m, r)
    ensures Key(w, g[i]) !in ObjectPrototypeNames ==> Key(w, g[i]) in r
    ensures !HasProperty(m, Key(w, g[i])) ==> r[Key(w, g[i])] == ValueOf(w, g[i])
    decreases Unregistered(w, g, m), 0, 0
  {
    var k := Key(w, g[i]);
    if HasProperty(m, k) then m
    else
      var m' := m[k := ValueOf(w, g[i])];
      UnregisteredShrinks(w, g, m, i, ValueOf(w, g[i]));
      var r := Fold(w, g, m', Edges(w, g, i));
      assert Extends(m, m');
      ExtendsTransitive(m, m', r);
      r
  }

  /** `cs.reduce(registerChunk, m)`: register the chunks of `cs` from left to right. */
  function Fold(w: Walk, g: seq<Chunk>, m: Manifest, cs: seq<nat>): (r: Manifest)
    requires WellFormed(g) && forall c :: c in cs ==> c < |g|
    ensures Extends(m, r)
    ensures forall c :: c in cs && Key(w, g[c]) !in ObjectPrototypeNames ==> Key(w, g[c]) in r
    decreases Unregistered(w, g, m), 1, |cs|
  {
    if cs == [] then m
    else
      assert cs[0] in cs;
      var m' := Register(w, g, m, cs[0]);
      UnregisteredMonotone(w, g, m, m');
      assert forall c :: c in cs <==> c == cs[0] || c in cs[1..];
      var r := Fold(w, g, m', cs[1..]);
      ExtendsTransitive(m, m', r);
      r
  }

  /** One step of each reduction, for proofs about them. */
  lemma FoldStep(w: Walk, g: seq<Chunk>, m: Manifest, cs: seq<nat>)
    requires WellFormed(g) && (forall c :: c in cs ==> c < |g|) && cs != []
    ensures cs[0] in cs && forall c :: c in cs[1..] ==> c < |g|
    ensures Fold(w, g, m, cs) == Fold(w, g, Register(w, g, m, cs[0]), cs[1..])
  {
    assert cs[0] in cs;
    assert forall c :: c in cs[1..] ==> c in cs;
  }

  lemma RegisterStep(w: Walk, g: seq<Chunk>, m: Manifest, i: nat)
    requires WellFormed(g) && i < |g| && !HasProperty(m, Key(w, g[i]))
    ensures Register(w, g, m, i) == Fold(w, g, m[Key(w, g[i]) := ValueOf(w, g[i])], Edges(w, g, i))
  {
  }

  /** The manifest one Phase A call builds: `[chunk].reduce(registerChunk, {})`.
      A trigger whose key is an inherited property name is taken as already
      registered, so the manifest stays empty. */
  function BuildManifest(w: Walk, g: seq<Chunk>, trigger: nat): (r: Manifest)
    requires WellFormed(g) && trigger < |g|
    ensures Key(w, g[trigger]) in ObjectPrototypeNames ==> r == map[]
    ensures Key(w, g[trigger]) !in ObjectPrototypeNames ==>
              Key(w, g[trigger]) in r && r[Key(w, g[trigger])] == ValueOf(w, g[trigger])
  {
    Register(w, g, map[], trigger)
  }

  /** What `JSON.stringify` keeps of a manifest: the keys whose value is not
      `undefined`, with their paths. */
  function Defined(m: Manifest): (d: map<string, string>)
    ensures forall k :: k in d <==> k in m && m[k].Path?
    ensures forall k :: k in d ==> m[k] == Path(d[k])
  {
    map k | k in m && m[k].Path? :: m[k].path
  }
}

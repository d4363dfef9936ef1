/** Three concrete chunk graphs run through the walk. */
module ManifestExamples {
  import opened JsValues
  import opened ManifestBuilder
  import opened ManifestReach

  /** Entry chunk A lazily loads B, which lazily loads C. */
  function ChainGraph(): seq<Chunk>
  {
    [ Chunk("A", "a", true, None, [1]),
      Chunk("B", "b", false, None, [2]),
      Chunk("C", "c", false, None, []) ]
  }

  /** The manifest of the chain: A, the entry, maps to `undefined`; B and C
      map to their resolved paths. */
  lemma ChainManifest(w: Walk)
    requires w.variant.Legacy?
    ensures WellFormed(ChainGraph())
    ensures var g := ChainGraph();
            BuildManifest(w, g, 0) ==
                map["A" := Undefined,
                    "B" := Path(w.assetPath(w.filename, w.hash, g[1])),
                    "C" := Path(w.assetPath(w.filename, w.hash, g[2]))]
  {
    var g := ChainGraph();
    assert WellFormed(g);
    var m1 := map["A" := ValueOf(w, g[0])];
    var m2 := m1["B" := ValueOf(w, g[1])];
    var m3 := m2["C" := ValueOf(w, g[2])];
    assert !HasProperty<Value>(map[], "A") && !HasProperty(m1, "B") && !HasProperty(m2, "C");
    RegisterStep(w, g, map[], 0);
    FoldStep(w, g, m1, [1]);
    RegisterStep(w, g, m1, 1);
    FoldStep(w, g, m2, [2]);
    RegisterStep(w, g, m2, 2);
    assert Fold(w, g, m3, []) == m3;
  }

  /** EntryManifestPlugin keys by name, and a chunk without a name has the
      key "undefined". */
  function UnnamedSiblingsGraph(): seq<Chunk>
  {
    [ Chunk("0", "main", true, None, [1, 2]),
      Chunk("1", "undefined", false, None, []),
      Chunk("2", "undefined", false, None, [3]),
      Chunk("3", "late", false, None, []) ]
  }

  /** Chunk 3 hangs below the second unnamed sibling. */
  lemma UnnamedSiblingsReach(w: Walk)
    requires w.variant.Entry?
    ensures WellFormed(UnnamedSiblingsGraph())
    ensures Reachable(w, UnnamedSiblingsGraph(), 0, 3)
  {
    var g := UnnamedSiblingsGraph();
    assert WellFormed(g);
    assert Edges(w, g, 0) == [1, 2] && Edges(w, g, 2) == [3];
    var p := [0, 2, 3];
    assert p[1] in Edges(w, g, p[0]) && p[2] in Edges(w, g, p[1]);
    assert IsPath(w, g, 0, p);
  }

  /** The name-keyed manifest of the two-unnamed-siblings graph. */
  lemma UnnamedSiblingsManifest(w: Walk)
    requires w.variant.Entry?
    ensures WellFormed(UnnamedSiblingsGraph())
    ensures BuildManifest(w, UnnamedSiblingsGraph(), 0).Keys == {"main", "undefined"}
  {
    var g := UnnamedSiblingsGraph();
    assert WellFormed(g);
    var m1 := map["main" := ValueOf(w, g[0])];
    var m2 := m1["undefined" := ValueOf(w, g[1])];
    assert !HasProperty<Value>(map[], "main") && !HasProperty(m1, "undefined");
    RegisterStep(w, g, map[], 0);
    FoldStep(w, g, m1, [1, 2]);
    RegisterStep(w, g, m1, 1);
    assert [1, 2][1..] == [2];
    FoldStep(w, g, m2, [2]);
    assert Register(w, g, m2, 2) == m2;
  }

  /** Two unnamed siblings share a key, so the second is skipped together
      with everything below it: chunk 3 is reachable but not in the manifest. */
  lemma UnnamedSiblingHidesDescendant(w: Walk)
    requires w.variant.Entry?
    ensures WellFormed(UnnamedSiblingsGraph())
    ensures Reachable(w, UnnamedSiblingsGraph(), 0, 3)
    ensures Key(w, UnnamedSiblingsGraph()[3]) !in BuildManifest(w, UnnamedSiblingsGraph(), 0)
  {
    UnnamedSiblingsReach(w);
    UnnamedSiblingsManifest(w);
  }

  /** The entry's child is named "constructor", a property every object
      inherits, and loads a chunk named "x". */
  function InheritedNameGraph(): seq<Chunk>
  {
    [ Chunk("0", "main", true, None, [1]),
      Chunk("1", "constructor", false, None, [2]),
      Chunk("2", "x", false, None, []) ]
  }

  /** `"constructor" in {}` is true, so the walk takes the child as already
      registered: neither it nor chunk "x" below it reaches the manifest, and
      the emitted JSON is empty. */
  lemma InheritedNameHidesDescendant(w: Walk)
    requires w.variant.Entry?
    ensures WellFormed(InheritedNameGraph())
    ensures BuildManifest(w, InheritedNameGraph(), 0) == map["main" := Undefined]
    ensures Defined(BuildManifest(w, InheritedNameGraph(), 0)) == map[]
  {
    var g := InheritedNameGraph();
    assert WellFormed(g);
    var m1 := map["main" := ValueOf(w, g[0])];
    assert !HasProperty<Value>(map[], "main") && HasProperty(m1, "constructor");
    RegisterStep(w, g, map[], 0);
    FoldStep(w, g, m1, [1]);
    assert Register(w, g, m1, 1) == m1;
    assert Fold(w, g, m1, []) == m1;
  }
}

/** What the manifest of one Phase A call contains: exactly the keys of the
    chunks the walk can reach from the trigger chunk, each with the value of
    its chunk. The walk never enters a chunk whose key is a property name
    inherited from `Object.prototype`, so it reaches a chunk only along paths
    that avoid such keys. */
module ManifestReach {
  import opened JsValues
  import opened ManifestBuilder

  /** Chunk `c` of the table is either in `S` or skipped by the walk on sight. */
  ghost predicate Covered(w: Walk, g: seq<Chunk>, S: set<nat>, c: nat)
  {
    c < |g| && (c in S || Key(w, g[c]) in ObjectPrototypeNames)
  }

  /** `S` is a set of chunks of the table closed under the edges the walk follows. */
  ghost predicate Closed(w: Walk, g: seq<Chunk>, S: set<nat>)
    requires WellFormed(g)
  {
    && (forall j :: j in S ==> j < |g|)
    && (forall j, c :: j in S && j < |g| && c in Edges(w, g, j) ==> Covered(w, g, S, c))
  }

  /** Key `k` with value `v` comes from a chunk of `S`. */
  ghost predicate Explained(w: Walk, g: seq<Chunk>, S: set<nat>, k: string, v: Value)
  {
    exists j :: j in S && j < |g| && Key(w, g[j]) == k && ValueOf(w, g[j]) == v
  }

  /** Every entry of `r` that is not in `m` comes from a chunk of `S`, and its
      key is no inherited property name. */
  ghost predicate NewEntriesFrom(w: Walk, g: seq<Chunk>, S: set<nat>, m: Manifest, r: Manifest)
  {
    forall k :: k in r && k !in m ==> k !in ObjectPrototypeNames && Explained(w, g, S, k, r[k])
  }

  lemma SoundStep(w: Walk, g: seq<Chunk>, S: set<nat>, m: Manifest, m': Manifest, r: Manifest)
    requires Extends(m', r)
    requires NewEntriesFrom(w, g, S, m, m') && NewEntriesFrom(w, g, S, m', r)
    ensures NewEntriesFrom(w, g, S, m, r)
  {
    forall k | k in r && k !in m
      ensures k !in ObjectPrototypeNames && Explained(w, g, S, k, r[k])
    {
      if k in m' {
        assert Explained(w, g, S, k, m'[k]);
      }
    }
  }

  /** Every entry the walk adds from a chunk covered by a closed set `S` comes from a chunk of `S`. */
  lemma {:induction false} RegisterSound(w: Walk, g: seq<Chunk>, S: set<nat>, m: Manifest, i: nat)
    requires WellFormed(g) && Closed(w, g, S) && Covered(w, g, S, i)
    ensures NewEntriesFrom(w, g, S, m, Register(w, g, m, i))
    decreases Unregistered(w, g, m), 0, 0
  {
    var k := Key(w, g[i]);
    if !HasProperty(m, k) {
      var m' := m[k := ValueOf(w, g[i])];
      UnregisteredShrinks(w, g, m, i, ValueOf(w, g[i]));
      FoldSound(w, g, S, m', Edges(w, g, i));
      var r := Fold(w, g, m', Edges(w, g, i));
      RegisterStep(w, g, m, i);
      assert i in S && i < |g| && Key(w, g[i]) == k && ValueOf(w, g[i]) == m'[k];
      assert NewEntriesFrom(w, g, S, m, m');
      SoundStep(w, g, S, m, m', r);
    }
  }

  lemma {:induction false} FoldSound(w: Walk, g: seq<Chunk>, S: set<nat>, m: Manifest, cs: seq<nat>)
    requires WellFormed(g) && Closed(w, g, S)
    requires forall c :: c in cs ==> c < |g| && Covered(w, g, S, c)
    ensures NewEntriesFrom(w, g, S, m, Fold(w, g, m, cs))
    decreases Unregistered(w, g, m), 1, |cs|
  {
    if cs != [] {
      FoldStep(w, g, m, cs);
      var m' := Register(w, g, m, cs[0]);
      RegisterSound(w, g, S, m, cs[0]);
      UnregisteredMonotone(w, g, m, m');
      assert forall c :: c in cs[1..] ==> c in cs;
      FoldSound(w, g, S, m', cs[1..]);
      SoundStep(w, g, S, m, m', Fold(w, g, m', cs[1..]));
    }
  }

  /** No two chunks of the table share a key (chunk ids are unique within a
      compilation; for EntryManifestPlugin this asks for unique names). */
  ghost predicate Injective(w: Walk, g: seq<Chunk>)
  {
    forall a, b :: 0 <= a < |g| && 0 <= b < |g| && Key(w, g[a]) == Key(w, g[b]) ==> a == b
  }

  /** Every chunk whose key is in `r` but not in `m` has the keys of all its
      edges in `r`, inherited property names aside. */
  ghost predicate ClosedBeyond(w: Walk, g: seq<Chunk>, r: Manifest, m: Manifest)
    requires WellFormed(g)
  {
    forall j, c :: 0 <= j < |g| && Key(w, g[j]) in r && Key(w, g[j]) !in m && c in Edges(w, g, j) &&
                   Key(w, g[c]) !in ObjectPrototypeNames ==>
      Key(w, g[c]) in r
  }

  lemma ClosedStep(w: Walk, g: seq<Chunk>, m: Manifest, m': Manifest, r: Manifest)
    requires WellFormed(g) && Extends(m', r)
    requires ClosedBeyond(w, g, m', m) && ClosedBeyond(w, g, r, m')
    ensures ClosedBeyond(w, g, r, m)
  {
    forall j, c | 0 <= j < |g| && Key(w, g[j]) in r && Key(w, g[j]) !in m && c in Edges(w, g, j) &&
                  Key(w, g[c]) !in ObjectPrototypeNames
      ensures Key(w, g[c]) in r
    {
      if Key(w, g[j]) in m' {
        assert Key(w, g[c]) in m';
      }
    }
  }

  /** With unique keys, every chunk the walk registers has had all its edges walked. */
  lemma {:induction false} RegisterClosed(w: Walk, g: seq<Chunk>, m: Manifest, i: nat)
    requires WellFormed(g) && Injective(w, g) && i < |g|
    ensures ClosedBeyond(w, g, Register(w, g, m, i), m)
    decreases Unregistered(w, g, m), 0, 0
  {
    var k := Key(w, g[i]);
    if !HasProperty(m, k) {
      var m' := m[k := ValueOf(w, g[i])];
      UnregisteredShrinks(w, g, m, i, ValueOf(w, g[i]));
      FoldClosed(w, g, m', Edges(w, g, i));
      var r := Fold(w, g, m', Edges(w, g, i));
      RegisterStep(w, g, m, i);
      forall j, c | 0 <= j < |g| && Key(w, g[j]) in r && Key(w, g[j]) !in m && c in Edges(w, g, j) &&
                    Key(w, g[c]) !in ObjectPrototypeNames
        ensures Key(w, g[c]) in r
      {
        if Key(w, g[j]) == k {
          assert j == i;
        } else {
          assert Key(w, g[j]) !in m';
        }
      }
    }
  }

  lemma {:induction false} FoldClosed(w: Walk, g: seq<Chunk>, m: Manifest, cs: seq<nat>)
    requires WellFormed(g) && Injective(w, g) && forall c :: c in cs ==> c < |g|
    ensures ClosedBeyond(w, g, Fold(w, g, m, cs), m)
    decreases Unregistered(w, g, m), 1, |cs|
  {
    if cs != [] {
      FoldStep(w, g, m, cs);
      var m' := Register(w, g, m, cs[0]);
      RegisterClosed(w, g, m, cs[0]);
      UnregisteredMonotone(w, g, m, m');
      FoldClosed(w, g, m', cs[1..]);
      ClosedStep(w, g, m, m', Fold(w, g, m', cs[1..]));
    }
  }

  /** `p` is a walk along edges starting at chunk `t` through chunks whose
      keys are no inherited property names: a path `registerChunk` can follow. */
  ghost predicate IsPath(w: Walk, g: seq<Chunk>, t: nat, p: seq<nat>)
    requires WellFormed(g)
  {
    && |p| > 0 && p[0] == t
    && (forall x :: 0 <= x < |p| ==> p[x] < |g| && Key(w, g[p[x]]) !in ObjectPrototypeNames)
    && (forall x :: 0 < x < |p| ==> p[x] in Edges(w, g, p[x - 1]))
  }

  /** Chunk `j` can be reached by the walk from chunk `t`. */
  ghost predicate Reachable(w: Walk, g: seq<Chunk>, t: nat, j: nat)
    requires WellFormed(g)
  {
    exists p :: IsPath(w, g, t, p) && p[|p| - 1] == j
  }

  ghost function ReachSet(w: Walk, g: seq<Chunk>, t: nat): set<nat>
    requires WellFormed(g)
  {
    set j | 0 <= j < |g| && Reachable(w, g, t, j)
  }

  /** The keys of the chunks reachable from `t`. */
  ghost function ReachableKeys(w: Walk, g: seq<Chunk>, t: nat): set<string>
    requires WellFormed(g)
  {
    set j | 0 <= j < |g| && Reachable(w, g, t, j) :: Key(w, g[j])
  }

  /** The reachable chunks form a closed set that covers the trigger. */
  lemma ReachSetClosed(w: Walk, g: seq<Chunk>, t: nat)
    requires WellFormed(g) && t < |g|
    ensures Closed(w, g, ReachSet(w, g, t)) && Covered(w, g, ReachSet(w, g, t), t)
  {
    var S := ReachSet(w, g, t);
    if Key(w, g[t]) !in ObjectPrototypeNames {
      assert IsPath(w, g, t, [t]);
    }
    forall j, c | j in S && j < |g| && c in Edges(w, g, j)
      ensures Covered(w, g, S, c)
    {
      if Key(w, g[c]) !in ObjectPrototypeNames {
        var p :| IsPath(w, g, t, p) && p[|p| - 1] == j;
        PathExtends(w, g, t, p, c);
      }
    }
  }

  /** A path extends by one more edge into a chunk the walk enters. */
  lemma PathExtends(w: Walk, g: seq<Chunk>, t: nat, p: seq<nat>, c: nat)
    requires WellFormed(g) && IsPath(w, g, t, p)
    requires c in Edges(w, g, p[|p| - 1]) && Key(w, g[c]) !in ObjectPrototypeNames
    ensures IsPath(w, g, t, p + [c]) && Reachable(w, g, t, c)
  {
    var q := p + [c];
    assert forall x :: 0 <= x < |p| ==> q[x] == p[x];
    assert IsPath(w, g, t, q);
  }

  /** Every chunk at the end of a path from the trigger has its key in the manifest. */
  lemma {:induction false} PathRegistered(w: Walk, g: seq<Chunk>, t: nat, p: seq<nat>)
    requires WellFormed(g) && Injective(w, g) && t < |g| && IsPath(w, g, t, p)
    ensures Key(w, g[p[|p| - 1]]) in BuildManifest(w, g, t)
    decreases |p|
  {
    if |p| == 1 {
      assert Key(w, g[p[0]]) !in ObjectPrototypeNames;
    } else {
      var q := p[..|p| - 1];
      assert IsPath(w, g, t, q);
      PathRegistered(w, g, t, q);
      RegisterClosed(w, g, map[], t);
      assert p[|p| - 1] in Edges(w, g, p[|p| - 2]) && Key(w, g[p[|p| - 1]]) !in ObjectPrototypeNames;
    }
  }

  /** Whatever the keys, the manifest holds only keys of reachable chunks,
      each with the value of a reachable chunk of that key. */
  lemma ManifestWithinReach(w: Walk, g: seq<Chunk>, t: nat)
    requires WellFormed(g) && t < |g|
    ensures NewEntriesFrom(w, g, ReachSet(w, g, t), map[], BuildManifest(w, g, t))
    ensures BuildManifest(w, g, t).Keys <= ReachableKeys(w, g, t)
  {
    ReachSetClosed(w, g, t);
    RegisterSound(w, g, ReachSet(w, g, t), map[], t);
    var r := BuildManifest(w, g, t);
    forall k | k in r
      ensures k in ReachableKeys(w, g, t)
    {
      var j :| j in ReachSet(w, g, t) && j < |g| && Key(w, g[j]) == k && ValueOf(w, g[j]) == r[k];
    }
  }

  /** With unique keys the manifest's key set is exactly the keys of the
      chunks reachable from the trigger, and each holds its own chunk's value. */
  lemma ManifestKeysAreReachable(w: Walk, g: seq<Chunk>, t: nat)
    requires WellFormed(g) && Injective(w, g) && t < |g|
    ensures BuildManifest(w, g, t).Keys == ReachableKeys(w, g, t)
    ensures forall j :: 0 <= j < |g| && Reachable(w, g, t, j) ==>
              BuildManifest(w, g, t)[Key(w, g[j])] == ValueOf(w, g[j])
  {
    var r := BuildManifest(w, g, t);
    ManifestWithinReach(w, g, t);
    forall j | 0 <= j < |g| && Reachable(w, g, t, j)
      ensures Key(w, g[j]) in r && r[Key(w, g[j])] == ValueOf(w, g[j])
    {
      var p :| IsPath(w, g, t, p) && p[|p| - 1] == j;
      PathRegistered(w, g, t, p);
      var j' :| j' in ReachSet(w, g, t) && j' < |g| && Key(w, g[j']) == Key(w, g[j]) && ValueOf(w, g[j']) == r[Key(w, g[j])];
    }
  }

  /** The webpack 4 walk folds over the whole chunk table, so its manifest
      holds the id of every chunk of the compilation that is no inherited
      property name, ids unique or not; a trigger with such an id leaves it empty. */
  lemma Webpack4ManifestKeys(w: Walk, g: seq<Chunk>, t: nat)
    requires w.variant.Webpack4? && WellFormed(g) && t < |g|
    ensures Key(w, g[t]) in ObjectPrototypeNames ==> BuildManifest(w, g, t) == map[]
    ensures Key(w, g[t]) !in ObjectPrototypeNames ==>
              BuildManifest(w, g, t).Keys == KeySet(w, g) - ObjectPrototypeNames
  {
    if Key(w, g[t]) !in ObjectPrototypeNames {
      Webpack4AllRegistered(w, g, t);
      ManifestKeysInTable(w, g, t);
    }
  }

  lemma Webpack4AllRegistered(w: Walk, g: seq<Chunk>, t: nat)
    requires w.variant.Webpack4? && WellFormed(g) && t < |g| && Key(w, g[t]) !in ObjectPrototypeNames
    ensures forall j :: 0 <= j < |g| && Key(w, g[j]) !in ObjectPrototypeNames ==> Key(w, g[j]) in BuildManifest(w, g, t)
  {
    RegisterStep(w, g, map[], t);
    forall j | 0 <= j < |g| && Key(w, g[j]) !in ObjectPrototypeNames
      ensures Key(w, g[j]) in BuildManifest(w, g, t)
    {
      assert AllChunks(|g|)[j] == j;
      assert j in Edges(w, g, t);
    }
  }

  /** Every manifest key is the key of a chunk of the table and no inherited property name. */
  lemma ManifestKeysInTable(w: Walk, g: seq<Chunk>, t: nat)
    requires WellFormed(g) && t < |g|
    ensures BuildManifest(w, g, t).Keys <= KeySet(w, g) - ObjectPrototypeNames
  {
    ManifestWithinReach(w, g, t);
    var r := BuildManifest(w, g, t);
    forall k | k in r
      ensures k in KeySet(w, g) - ObjectPrototypeNames
    {
      assert Explained(w, g, ReachSet(w, g, t), k, r[k]);
    }
  }

  /** Whatever the keys, the emitted JSON holds only keys of chunks the walk can reach. */
  lemma EmittedWithinReach(w: Walk, g: seq<Chunk>, t: nat)
    requires WellFormed(g) && t < |g|
    ensures Defined(BuildManifest(w, g, t)).Keys <= ReachableKeys(w, g, t)
  {
    ManifestWithinReach(w, g, t);
  }

  /** What the emitted JSON keeps: a reachable chunk appears in it exactly
      when it has no runtime; nothing unreachable appears. */
  lemma EmittedEntries(w: Walk, g: seq<Chunk>, t: nat)
    requires WellFormed(g) && Injective(w, g) && t < |g|
    ensures forall j :: 0 <= j < |g| && Reachable(w, g, t, j) ==>
              (Key(w, g[j]) in Defined(BuildManifest(w, g, t)) <==> !HasRuntime(w, g[j]))
    ensures Defined(BuildManifest(w, g, t)).Keys <= ReachableKeys(w, g, t)
  {
    ManifestKeysAreReachable(w, g, t);
  }
}

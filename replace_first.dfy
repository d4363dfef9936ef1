/** `String.prototype.replace` with a string pattern: only the first
    occurrence of the pattern is replaced. */
module StringReplace {

  /** The pattern occurs in `s` starting at index `i`. */
  predicate MatchAt(s: string, pat: string, i: nat)
  {
    i + |pat| <= |s| && s[i..i + |pat|] == pat
  }

  /** The first index at or after `k` where `pat` occurs in `s`, if any. */
  function IndexOfFrom(s: string, pat: string, k: nat): (r: nat)
    requires k <= |s| + 1
    ensures k <= r
    ensures r + |pat| <= |s| ==> MatchAt(s, pat, r)
    ensures forall j :: k <= j < r ==> !MatchAt(s, pat, j)
    decreases |s| + 1 - k
  {
    if k + |pat| > |s| then |s| + 1
    else if s[k..k + |pat|] == pat then k
    else IndexOfFrom(s, pat, k + 1)
  }

  /** `s.indexOf(pat)`: the least index where `pat` occurs, or `Absent`. */
  function IndexOf(s: string, pat: string): (r: Search)
    ensures r.Found? ==> MatchAt(s, pat, r.index)
    ensures r.Found? ==> forall j :: 0 <= j < r.index ==> !MatchAt(s, pat, j)
    ensures r.Absent? ==> forall j :: 0 <= j ==> !MatchAt(s, pat, j)
  {
    var i := IndexOfFrom(s, pat, 0);
    if i + |pat| <= |s| then Found(i) else Absent
  }

  /** Result of a search for a pattern. */
  datatype Search = Absent | Found(index: nat)

  /** `s.replace(pat, rep)`: the first occurrence of `pat` becomes `rep`,
      everything before and after it is kept; without an occurrence `s` is
      returned as it is. */
  function ReplaceFirst(s: string, pat: string, rep: string): (r: string)
    ensures (forall j :: 0 <= j ==> !MatchAt(s, pat, j)) ==> r == s
    ensures forall i: nat :: MatchAt(s, pat, i) && (forall j: nat :: j < i ==> !MatchAt(s, pat, j)) ==>
              r == s[..i] + rep + s[i + |pat|..]
  {
    match IndexOf(s, pat)
    case Absent => s
    case Found(i) => s[..i] + rep + s[i + |pat|..]
  }

  /** Only the first occurrence is replaced: whatever follows it, further
      occurrences included, is kept. */
  lemma OnlyFirstReplaced(pat: string, rest: string, rep: string)
    ensures ReplaceFirst(pat + rest, pat, rep) == rep + rest
  {
    var s := pat + rest;
    assert MatchAt(s, pat, 0);
    assert s[..0] + rep + s[|pat|..] == rep + rest;
  }
}

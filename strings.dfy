/** The JavaScript string operations the code relies on: `indexOf` and
    `replace` with a string pattern, which replaces only the first occurrence. */
module Strings {

  /** `pat` occurs in `s` starting at index `i`. */
  ghost predicate OccursAt(s: string, pat: string, i: int)
  {
    0 <= i && i + |pat| <= |s| && s[i..i + |pat|] == pat
  }

  /** `pat` occurs somewhere in `s`. */
  ghost predicate Contains(s: string, pat: string)
  {
    exists i :: OccursAt(s, pat, i)
  }

  /** JavaScript `s.indexOf(pat)`: the least index where `pat` occurs, or -1. */
  function IndexOf(s: string, pat: string): (r: int)
    ensures r == -1 || OccursAt(s, pat, r)
    ensures forall j :: 0 <= j && (r == -1 || j < r) ==> !OccursAt(s, pat, j)
  {
    if |s| < |pat| then
      assert forall j :: 0 <= j ==> !OccursAt(s, pat, j);
      -1
    else if s[..|pat|] == pat then
      0
    else
      var k := IndexOf(s[1..], pat);
      forall j | 1 <= j && j + |pat| <= |s|
        ensures OccursAt(s, pat, j) == OccursAt(s[1..], pat, j - 1)
      {
        assert s[1..][j - 1..j - 1 + |pat|] == s[j..j + |pat|];
      }
      if k < 0 then -1 else k + 1
  }

  /** An occurrence found at `i` with none before it is what `IndexOf` returns. */
  lemma IndexOfIsFirst(s: string, pat: string, i: int)
    requires OccursAt(s, pat, i)
    requires forall j :: 0 <= j < i ==> !OccursAt(s, pat, j)
    ensures IndexOf(s, pat) == i
  {
  }

  /** `pat` occurs in `s` exactly when `indexOf` finds it. */
  lemma ContainsIffFound(s: string, pat: string)
    ensures Contains(s, pat) <==> IndexOf(s, pat) >= 0
  {
    if IndexOf(s, pat) >= 0 {
      assert OccursAt(s, pat, IndexOf(s, pat));
    }
  }

  /** A string lacking one of the characters of `pat` does not contain `pat`. */
  lemma MissingCharAbsent(s: string, pat: string, k: int)
    requires 0 <= k < |pat| && pat[k] !in s
    ensures !Contains(s, pat)
  {
    forall j | 0 <= j
      ensures !OccursAt(s, pat, j)
    {
      if j + |pat| <= |s| {
        assert s[j..j + |pat|][k] == s[j + k];
      }
    }
  }

  /** JavaScript `s.replace(pat, rep)` for a string `pat`: the first occurrence
      of `pat`, if any, is replaced by `rep`. `rep` is inserted literally;
      JavaScript would expand the patterns `$&`, `$$`, `` $` `` and `$'` in it,
      which none of the replacements `formatUrl` uses contains. */
  function ReplaceFirst(s: string, pat: string, rep: string): (r: string)
    ensures !Contains(s, pat) ==> r == s
    ensures Contains(s, pat) ==> |r| == |s| - |pat| + |rep|
  {
    var i := IndexOf(s, pat);
    if i < 0 then s else s[..i] + rep + s[i + |pat|..]
  }

  /** Where `pat` occurs, exactly its first occurrence is replaced and the text
      before and after that span is kept. */
  lemma ReplaceFirstPresent(s: string, pat: string, rep: string)
    requires Contains(s, pat)
    ensures var i := IndexOf(s, pat);
            && OccursAt(s, pat, i)
            && (forall j :: 0 <= j < i ==> !OccursAt(s, pat, j))
            && ReplaceFirst(s, pat, rep) == s[..i] + rep + s[i + |pat|..]
  {
    ContainsIffFound(s, pat);
  }


  /** In `a + pat + b`, where `a` lacks the first character of `pat`, the
      first occurrence of `pat` is the one after `a`, so replacing it gives
      `a + rep + b`. */
  lemma ReplaceFirstAfter(a: string, pat: string, b: string, rep: string)
    requires |pat| > 0 && pat[0] !in a
    ensures IndexOf(a + pat + b, pat) == |a|
    ensures ReplaceFirst(a + pat + b, pat, rep) == a + rep + b
  {
    var s := a + pat + b;
    forall j | 0 <= j < |a|
      ensures !OccursAt(s, pat, j)
    {
      assert s[j..j + |pat|][0] == a[j];
    }
    assert OccursAt(s, pat, |a|);
    IndexOfIsFirst(s, pat, |a|);
    assert s[..|a|] == a && s[|a| + |pat|..] == b;
  }

}

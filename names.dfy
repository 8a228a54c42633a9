/** Option names and their normalisation: ':' and '/' are accepted as group
    separators on input and are rewritten to the canonical '\'. */
module Names {

  /** The canonical group separator. */
  const Separator: char := '\\'

  predicate IsSeparator(c: char) {
    c == '/' || c == ':' || c == Separator
  }

  /** A name in which ':' and '/' no longer occur. */
  predicate IsClean(s: string) {
    '/' !in s && ':' !in s
  }

  /** String.Replace of one character by another. */
  function Replace(s: string, from: char, to: char): (r: string)
    ensures |r| == |s|
    ensures forall i :: 0 <= i < |s| ==> r[i] == (if s[i] == from then to else s[i])
  {
    if s == [] then [] else [if s[0] == from then to else s[0]] + Replace(s[1..], from, to)
  }

  /** Replacing a character that does not occur changes nothing. */
  lemma ReplaceAbsent(s: string, from: char, to: char)
    requires from !in s
    ensures Replace(s, from, to) == s
  {
    assert forall i :: 0 <= i < |s| ==> Replace(s, from, to)[i] == s[i];
  }

  /** The rewrite done by CleanAndCheckName and Init: '/' first, then ':'. */
  function Normalize(s: string): (r: string)
    ensures |r| == |s| && IsClean(r)
    ensures forall i :: 0 <= i < |s| ==> r[i] == (if s[i] == '/' || s[i] == ':' then Separator else s[i])
  {
    Replace(Replace(s, '/', Separator), ':', Separator)
  }

  /** Normalising twice is normalising once. */
  lemma NormalizeIdempotent(s: string)
    ensures Normalize(Normalize(s)) == Normalize(s)
  {
    var n := Normalize(s);
    assert forall i :: 0 <= i < |n| ==> Normalize(n)[i] == n[i];
  }

  /** A name that is already clean is left as it is. */
  lemma NormalizeKeepsClean(s: string)
    requires IsClean(s)
    ensures Normalize(s) == s
  {
    assert forall i :: 0 <= i < |s| ==> Normalize(s)[i] == s[i];
  }

  /** The extension methods replace ':' first and '/' second; the result is the same. */
  lemma ReplaceOrderIrrelevant(s: string)
    ensures Replace(Replace(s, ':', Separator), '/', Separator) == Normalize(s)
  {
    var a := Replace(Replace(s, ':', Separator), '/', Separator);
    assert forall i :: 0 <= i < |s| ==> a[i] == Normalize(s)[i];
  }

  /** Two names address the same option exactly when they agree everywhere
      except where both carry one of the three separators. */
  lemma SameNameUpToSeparators(a: string, b: string)
    ensures Normalize(a) == Normalize(b) <==>
      |a| == |b| && forall i :: 0 <= i < |a| ==> a[i] == b[i] || (IsSeparator(a[i]) && IsSeparator(b[i]))
  {
    if Normalize(a) == Normalize(b) {
      forall i | 0 <= i < |a|
        ensures a[i] == b[i] || (IsSeparator(a[i]) && IsSeparator(b[i]))
      {
        assert Normalize(a)[i] == Normalize(b)[i];
      }
    }
    if |a| == |b| && forall i :: 0 <= i < |a| ==> a[i] == b[i] || (IsSeparator(a[i]) && IsSeparator(b[i])) {
      assert forall i :: 0 <= i < |a| ==> Normalize(a)[i] == Normalize(b)[i];
    }
  }
}

/** Facts about sequences that the menu proofs lean on but that do not
    depend on anything menu-specific. */
module Sequences {

  /** Regrouping a concatenation around one element. */
  lemma AppendShift<T>(a: seq<T>, x: T, rest: seq<T>)
    ensures a + ([x] + rest) == (a + [x]) + rest
  {
  }

  /** A common suffix keeps different sequences different. */
  lemma SuffixKeepsDifference<T>(a: seq<T>, b: seq<T>, suffix: seq<T>)
    requires a != b
    ensures a + suffix != b + suffix
  {
    if |a| == |b| {
      assert (a + suffix)[..|a|] == a && (b + suffix)[..|b|] == b;
    } else {
      assert |a + suffix| != |b + suffix|;
    }
  }

  /** A common prefix keeps different sequences different. */
  lemma PrefixKeepsDifference<T>(pre: seq<T>, a: seq<T>, b: seq<T>)
    requires a != b
    ensures pre + a != pre + b
  {
    assert (pre + a)[|pre|..] == a && (pre + b)[|pre|..] == b;
  }

  /** A scan that stops at the first element failing `test`: true exactly
      when every element passes. */
  function AllOf<T>(s: seq<T>, test: T -> bool): (r: bool)
    ensures r <==> forall i :: 0 <= i < |s| ==> test(s[i])
  {
    if s == [] then true
    else if !test(s[0]) then false
    else
      assert forall i :: 1 <= i < |s| ==> s[i] == s[1..][i - 1];
      AllOf(s[1..], test)
  }

  /** Where each of five concatenated pieces sits in the whole. */
  lemma ConcatPieces<T>(a: seq<T>, b: seq<T>, c: seq<T>, d: seq<T>, e: seq<T>)
    ensures var r, i, j := a + b + c + d + e, |a|, |a| + |b|;
            && |r| == j + |c| + |d| + |e|
            && r[..i] == a && r[i..j] == b && r[j..j + |c|] == c
            && r[|r| - |e|..] == e
  {
  }
}

/** A radix tree, as a map from keys in which one can look for the longest key that is a prefix. */
module PrefixTrees {
  import opened Constraints

  predicate Prefix(a: string, b: string) { |a| <= |b| && b[..|a|] == a }

  predicate ProperPrefix(a: string, b: string) { Prefix(a, b) && |a| < |b| }

  /** The longest key that is a prefix of p and no longer than n. */
  function LongestUpTo<V>(t: map<string, V>, p: string, n: nat): (r: Option<string>)
    requires n <= |p|
    ensures r.Some? ==> r.value in t && Prefix(r.value, p) && |r.value| <= n
    ensures forall k :: k in t && Prefix(k, p) && |k| <= n ==> r.Some? && |k| <= |r.value|
  {
    if p[..n] in t then Some(p[..n])
    else if n == 0 then None
    else LongestUpTo(t, p, n - 1)
  }

  function LongestPrefix<V>(t: map<string, V>, p: string): Option<string> { LongestUpTo(t, p, |p|) }

  lemma PrefixesCompare(a: string, b: string, p: string)
    requires Prefix(a, p) && Prefix(b, p) && |a| <= |b|
    ensures Prefix(a, b) && (|a| == |b| ==> a == b)
  {
    assert b[..|a|] == p[..|a|];
  }

  lemma PrefixesChain(a: string, b: string, c: string)
    requires Prefix(a, b) && Prefix(b, c)
    ensures Prefix(a, c)
  {
    assert c[..|a|] == c[..|b|][..|a|];
  }
}

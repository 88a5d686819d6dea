/** Facts about sequences as multisets that more than one module needs. */
module Sequences {

  function Without<T>(s: seq<T>, k: nat): seq<T>
    requires k < |s|
  {
    s[..k] + s[k + 1..]
  }

  lemma WithoutRemovesOne<T>(s: seq<T>, k: nat)
    requires k < |s|
    ensures multiset(s) == multiset(Without(s, k)) + multiset{s[k]}
  {
    assert s == s[..k] + [s[k]] + s[k + 1..];
  }

  /** A permutation of a nonempty `s` holds the last element of `s`, and stays a
      permutation of the rest when that element is taken out. */
  lemma PermutationStep<T>(s: seq<T>, t: seq<T>) returns (k: nat)
    requires s != [] && multiset(s) == multiset(t)
    ensures k < |t| && t[k] == s[|s| - 1]
    ensures multiset(s[..|s| - 1]) == multiset(Without(t, k))
  {
    var n := |s| - 1;
    assert s[n] in multiset(t);
    k :| 0 <= k < |t| && t[k] == s[n];
    WithoutRemovesOne(t, k);
    WithoutRemovesOne(s, n);
    assert Without(s, n) == s[..n];
    assert multiset(s[..n]) == multiset(s) - multiset{s[n]};
    assert multiset(Without(t, k)) == multiset(t) - multiset{t[k]};
  }
}

/** Real sums and counts over sequences, and their independence of order. */
module Sums {

  function SumBy<T>(f: T -> real, s: seq<T>): real {
    if s == [] then 0.0 else SumBy(f, s[..|s| - 1]) + f(s[|s| - 1])
  }

  lemma {:induction false} SumAppend<T>(f: T -> real, s: seq<T>, x: T)
    ensures SumBy(f, s + [x]) == SumBy(f, s) + f(x)
  {
    assert (s + [x])[..|s|] == s;
  }

  lemma {:induction false} SumRemove<T>(f: T -> real, s: seq<T>, k: nat)
    requires k < |s|
    ensures SumBy(f, s) == SumBy(f, s[..k] + s[k + 1..]) + f(s[k])
  {
    var last := |s| - 1;
    if k == last {
      assert s[..k] + s[k + 1..] == s[..last];
    } else {
      SumRemove(f, s[..last], k);
      assert s[..k] + s[k + 1..] == (s[..last][..k] + s[..last][k + 1..]) + [s[last]];
      SumAppend(f, s[..last][..k] + s[..last][k + 1..], s[last]);
    }
  }

  /** Taking out position k takes one occurrence of its element out of the multiset. */
  lemma {:induction false} MultisetRemove<T>(t: seq<T>, k: nat)
    requires k < |t|
    ensures multiset(t[..k] + t[k + 1..]) == multiset(t) - multiset{t[k]}
  {
    assert t == t[..k] + [t[k]] + t[k + 1..];
  }

  /** A sum depends only on the multiset of its terms. */
  lemma {:induction false} SumPermutation<T>(f: T -> real, s: seq<T>, t: seq<T>)
    requires multiset(s) == multiset(t)
    ensures SumBy(f, s) == SumBy(f, t)
  {
    if s == [] {
      assert |multiset(t)| == 0;
    } else {
      var last := |s| - 1;
      assert s[last] in multiset(s);
      var k :| 0 <= k < |t| && t[k] == s[last];
      MultisetRemove(s, last);
      MultisetRemove(t, k);
      assert s[..last] + s[last + 1..] == s[..last];
      SumPermutation(f, s[..last], t[..k] + t[k + 1..]);
      SumRemove(f, t, k);
    }
  }
}

/** How often something occurs, in a list and over many places. */
module Counting {

  function Times<T(==)>(x: T, y: T): nat {
    if x == y then 1 else 0
  }

  function Count<T(==)>(s: seq<T>, x: T): nat {
    if s == [] then 0 else Count(s[..|s| - 1], x) + Times(s[|s| - 1], x)
  }

  lemma {:induction false} CountFront<T>(s: seq<T>, x: T)
    requires s != []
    ensures Count(s, x) == Times(s[0], x) + Count(s[1..], x)
  {
    if |s| > 1 {
      CountFront(s[..|s| - 1], x);
      assert s[..|s| - 1][1..] == s[1..][..|s| - 2];
    }
  }

  lemma CountBack<T>(s: seq<T>, y: T, x: T)
    ensures Count(s + [y], x) == Count(s, x) + Times(y, x)
  {
    assert (s + [y])[..|s|] == s;
  }

  function Total(counts: seq<nat>): nat {
    if counts == [] then 0 else Total(counts[..|counts| - 1]) + counts[|counts| - 1]
  }

  lemma {:induction false} TotalUpdate(counts: seq<nat>, k: nat, v: nat)
    requires k < |counts|
    ensures Total(counts[k := v]) + counts[k] == Total(counts) + v
  {
    var n := |counts| - 1;
    if k < n {
      TotalUpdate(counts[..n], k, v);
      assert counts[k := v][..n] == counts[..n][k := v];
    } else {
      assert counts[k := v][..n] == counts[..n];
    }
  }

  lemma {:induction false} TotalZero(counts: seq<nat>)
    requires forall k :: 0 <= k < |counts| ==> counts[k] == 0
    ensures Total(counts) == 0
  {
    if counts != [] { TotalZero(counts[..|counts| - 1]); }
  }

  lemma {:induction false} TotalBounds(counts: seq<nat>, k: nat)
    requires k < |counts|
    ensures counts[k] <= Total(counts)
  {
    if k < |counts| - 1 { TotalBounds(counts[..|counts| - 1], k); }
  }
}

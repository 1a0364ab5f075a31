/** Finite sums of reals, and sequences with one element left out. */
module Sums {

  /** f(0) + ... + f(n - 1). */
  function Sum(n: nat, f: int -> real): real {
    if n == 0 then 0.0 else Sum(n - 1, f) + f(n - 1)
  }

  /** The product; proofs about long sums hide its definition and use the laws below. */
  function Times(x: real, y: real): real {
    x * y
  }

  lemma TimesAdd(c: real, x: real, y: real)
    ensures Times(c, x + y) == Times(c, x) + Times(c, y)
  {
  }

  lemma TimesNegate(x: real, y: real)
    ensures Times(x, -y) == -Times(x, y)
  {
  }

  lemma TimesCommutes(x: real, y: real)
    ensures Times(x, y) == Times(y, x)
  {
  }

  lemma TimesRegroup(x: real, y: real, z: real)
    ensures Times(x, Times(y, z)) == Times(z, Times(x, y))
  {
  }

  lemma TimesZero(x: real)
    ensures Times(x, 0.0) == 0.0
  {
  }

  lemma TimesExchange(x: real, y: real, z: real)
    ensures Times(x, Times(y, z)) == Times(y, Times(x, z))
  {
  }

  /** s without its element k. */
  function Without<T>(s: seq<T>, k: nat): (r: seq<T>)
    requires k < |s|
    ensures |r| == |s| - 1
    ensures forall i :: 0 <= i < |r| ==> r[i] == s[if i < k then i else i + 1]
  {
    s[..k] + s[k + 1..]
  }

  lemma {:induction false} SumEqual(n: nat, f: int -> real, g: int -> real)
    requires forall i :: 0 <= i < n ==> f(i) == g(i)
    ensures Sum(n, f) == Sum(n, g)
  {
    if n > 0 { SumEqual(n - 1, f, g); }
  }

  lemma {:induction false} SumAdd(n: nat, f: int -> real, g: int -> real)
    ensures Sum(n, i => f(i) + g(i)) == Sum(n, f) + Sum(n, g)
  {
    if n > 0 { SumAdd(n - 1, f, g); }
  }

  lemma {:induction false} SumNegated(n: nat, f: int -> real, g: int -> real)
    requires forall i :: 0 <= i < n ==> g(i) == -f(i)
    ensures Sum(n, g) == -Sum(n, f)
  {
    if n > 0 { SumNegated(n - 1, f, g); }
  }

  /** A constant factor, and a sign, move into the sum. */
  lemma {:induction false} SumScaled(n: nat, even: bool, c: real, f: int -> real, g: int -> real)
    requires forall i :: 0 <= i < n ==> g(i) == if even then Times(c, f(i)) else -Times(c, f(i))
    ensures Sum(n, g) == if even then Times(c, Sum(n, f)) else -Times(c, Sum(n, f))
  {
    if n > 0 {
      SumScaled(n - 1, even, c, f, g);
      TimesAdd(c, Sum(n - 1, f), f(n - 1));
    }
  }

  lemma {:induction false} SumZero(n: nat, f: int -> real)
    requires forall i :: 0 <= i < n ==> f(i) == 0.0
    ensures Sum(n, f) == 0.0
  {
    if n > 0 { SumZero(n - 1, f); }
  }

  /** A sum over n values that is nonzero only at k. */
  lemma {:induction false} SumSingle(n: nat, k: nat, f: int -> real)
    requires k < n && forall i :: 0 <= i < n && i != k ==> f(i) == 0.0
    ensures Sum(n, f) == f(k)
  {
    if k == n - 1 { SumZero(n - 1, f); } else { SumSingle(n - 1, k, f); }
  }

  /** The first term split off. */
  lemma {:induction false} SumFirst(n: nat, f: int -> real)
    ensures Sum(n + 1, f) == f(0) + Sum(n, i => f(i + 1))
  {
    if n > 0 { SumFirst(n - 1, f); }
  }

  /** Sum of row i over the first m columns. */
  function RowSum(f: (int, int) -> real, m: nat): int -> real {
    i => Sum(m, j => f(i, j))
  }

  /** Sum of column j over the first n rows. */
  function ColumnSum(f: (int, int) -> real, n: nat): int -> real {
    j => Sum(n, i => f(i, j))
  }

  /** A finite double sum does not depend on the order of summation. */
  lemma {:induction false} SumSwap(n: nat, m: nat, f: (int, int) -> real)
    ensures Sum(n, RowSum(f, m)) == Sum(m, ColumnSum(f, n))
  {
    if n == 0 {
      SumZero(m, ColumnSum(f, 0));
    } else {
      SumSwap(n - 1, m, f);
      var last := j => f(n - 1, j);
      SumAdd(m, ColumnSum(f, n - 1), last);
      SumEqual(m, ColumnSum(f, n), j => ColumnSum(f, n - 1)(j) + last(j));
      SumEqual(m, last, j => f(n - 1, j));
    }
  }

  lemma SumTail(n: nat, f: int -> real, tail: int -> real)
    requires forall i :: 0 <= i < n ==> f(i + 1) == tail(i)
    ensures Sum(n + 1, f) == f(0) + Sum(n, tail)
  {
    SumFirst(n, f);
    SumEqual(n, i => f(i + 1), tail);
  }

  /** A sum over n - 1 values is one over n values that skips index k. */
  lemma {:induction false} SumSkip(n: nat, k: nat, g: int -> real)
    requires k < n
    ensures Sum(n - 1, g) == Sum(n, i => if i == k then 0.0 else g(if i < k then i else i - 1))
  {
    var h := i => if i == k then 0.0 else g(if i < k then i else i - 1);
    if k == n - 1 {
      SumEqual(n - 1, g, h);
    } else {
      SumSkip(n - 1, k, g);
    }
  }
}

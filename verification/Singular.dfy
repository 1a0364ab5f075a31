/** A matrix whose determinant is zero has no inverse at all: `inverse` throws exactly then. */
module Singular {
  import opened Wrappers
  import opened Sums
  import opened Determinant
  import opened MatrixAlgebra
  import opened Inverse
  import opened InverseProof

  /** A strictly increasing selection of indices below n. */
  ghost predicate Increasing(s: seq<int>, n: nat) {
    && (forall i :: 0 <= i < |s| ==> 0 <= s[i] < n)
    && forall i, j :: 0 <= i < j < |s| ==> s[i] < s[j]
  }

  ghost predicate MinorsVanish(a: Entries, n: nat, k: nat) {
    forall rows: seq<int>, cols: seq<int> ::
      |rows| == k && |cols| == k && Increasing(rows, n) && Increasing(cols, n) ==> Det(a, rows, cols) == 0.0
  }

  function Insert(s: seq<int>, q: nat, c: int): (r: seq<int>)
    requires q <= |s|
    ensures |r| == |s| + 1 && r[q] == c && Without(r, q) == s
    ensures forall i :: 0 <= i < |s| ==> r[if i < q then i else i + 1] == s[i]
  {
    var r := s[..q] + [c] + s[q..];
    assert Without(r, q) == s;
    r
  }

  lemma {:induction false} IncreasingFromZero(s: seq<int>, n: nat, i: nat)
    requires Increasing(s, n) && i < |s|
    ensures i <= s[i] <= n - |s| + i
    decreases i
  {
    if i > 0 { IncreasingFromZero(s, n, i - 1); }
    IncreasingToEnd(s, n, i);
  }

  lemma {:induction false} IncreasingToEnd(s: seq<int>, n: nat, i: nat)
    requires Increasing(s, n) && i < |s|
    ensures s[i] <= n - |s| + i
    decreases |s| - i
  {
    if i + 1 < |s| { IncreasingToEnd(s, n, i + 1); }
  }

  /** The only increasing selection of all n indices is 0, 1, ..., n - 1. */
  lemma FullSelection(s: seq<int>, n: nat)
    requires Increasing(s, n) && |s| == n
    ensures s == Range(n)
  {
    forall i | 0 <= i < n
      ensures s[i] == Range(n)[i]
    {
      IncreasingFromZero(s, n, i);
    }
  }

  /** The least index a short selection misses goes in at its own position. */
  lemma MissingIndex(s: seq<int>, n: nat) returns (p: nat)
    requires Increasing(s, n) && |s| < n
    ensures p <= |s| && p < n && Increasing(Insert(s, p, p), n)
  {
    p := 0;
    while p < |s| && s[p] == p
      invariant p <= |s| && forall i :: 0 <= i < p ==> s[i] == i
    {
      p := p + 1;
    }
    if p < |s| { IncreasingFromZero(s, n, p); }
    InsertKeepsIncreasing(s, n, p, p);
  }

  lemma InsertKeepsIncreasing(s: seq<int>, n: nat, q: nat, c: nat)
    requires Increasing(s, n) && q <= |s| && c < n
    requires forall i :: 0 <= i < q ==> s[i] < c
    requires forall i :: q <= i < |s| ==> c < s[i]
    ensures Increasing(Insert(s, q, c), n)
  {
    hide Insert;
    var r := Insert(s, q, c);
    forall i | 0 <= i < |r|
      ensures 0 <= r[i] < n && r[i] == if i < q then s[i] else if i == q then c else s[i - 1]
    {
      if i < q {
        assert 0 <= s[i] < n;
      } else if i > q {
        assert r[if i - 1 < q then i - 1 else i - 1 + 1] == s[i - 1];
      }
    }
    forall i, j | 0 <= i < j < |r|
      ensures r[i] < r[j]
    {
      assert r[i] == if i < q then s[i] else if i == q then c else s[i - 1];
      assert r[j] == if j < q then s[j] else if j == q then c else s[j - 1];
    }
  }

  /** Where an index that a selection does not contain goes in. */
  lemma SortedPosition(s: seq<int>, n: nat, c: nat) returns (q: nat)
    requires Increasing(s, n) && c < n && c !in s
    ensures q <= |s| && Increasing(Insert(s, q, c), n)
  {
    q := 0;
    while q < |s| && s[q] < c
      invariant q <= |s| && forall i :: 0 <= i < q ==> s[i] < c
    {
      q := q + 1;
    }
    InsertKeepsIncreasing(s, n, q, c);
  }

  /** The i-th weighted entry of column c, the weight being a minor without row i. */
  function Weighted(a: Entries, rows: seq<int>, cols: seq<int>, c: int): int -> real
    requires |rows| == |cols| + 1
  {
    i =>
      if 0 <= i < |rows| then
        var product := Times(a(rows[i], c), Det(a, Without(rows, i), cols));
        if i % 2 == 0 then product else -product
      else 0.0
  }

  lemma WeightedTerm(a: Entries, rows: seq<int>, cols: seq<int>, q: nat, c: int, i: nat)
    requires |rows| == |cols| + 1 && q <= |cols| && i < |rows|
    ensures RowTerm(Transposed(a), Insert(cols, q, c), rows, q)(i)
         == if q % 2 == 0 then Weighted(a, rows, cols, c)(i) else -Weighted(a, rows, cols, c)(i)
  {
    hide Times, Without, Sum, Det;
    var all := Insert(cols, q, c);
    var minor := Det(a, Without(rows, i), cols);
    DetTransposed(a, Without(rows, i), cols);
    RowTermAt(Transposed(a), all, rows, q, i, minor);
    assert Weighted(a, rows, cols, c)(i) == if i % 2 == 0 then Times(a(rows[i], c), minor) else -Times(a(rows[i], c), minor);
  }

  /** Expansion along the column at position q. */
  lemma InsertedColumn(a: Entries, rows: seq<int>, cols: seq<int>, q: nat, c: int)
    requires |rows| == |cols| + 1 && q <= |cols|
    ensures Det(a, rows, Insert(cols, q, c))
         == if q % 2 == 0 then Sum(|rows|, Weighted(a, rows, cols, c)) else -Sum(|rows|, Weighted(a, rows, cols, c))
  {
    hide Times, Without, Sum, Det;
    var all := Insert(cols, q, c);
    DetTransposed(a, rows, all);
    ExpandAlongRow(Transposed(a), all, rows, q);
    forall i | 0 <= i < |rows|
      ensures RowTerm(Transposed(a), all, rows, q)(i)
           == if q % 2 == 0 then Weighted(a, rows, cols, c)(i) else -Weighted(a, rows, cols, c)(i)
    {
      WeightedTerm(a, rows, cols, q, c, i);
    }
    if q % 2 == 0 {
      SumEqual(|rows|, RowTerm(Transposed(a), all, rows, q), Weighted(a, rows, cols, c));
    } else {
      SumNegated(|rows|, Weighted(a, rows, cols, c), RowTerm(Transposed(a), all, rows, q));
    }
  }

  /** If all larger minors vanish, the minors below weigh every column of the matrix to zero. */
  lemma WeightedColumnVanishes(a: Entries, n: nat, rows: seq<int>, cols: seq<int>, c: nat)
    requires |rows| == |cols| + 1 && Increasing(rows, n) && Increasing(cols, n) && c < n
    requires MinorsVanish(a, n, |rows|)
    ensures Sum(|rows|, Weighted(a, rows, cols, c)) == 0.0
  {
    hide Times, Without, Sum, Det, Weighted, Insert;
    if c in cols {
      RepeatedColumnVanishes(a, rows, cols, c);
      InsertedColumn(a, rows, cols, 0, c);
    } else {
      var q := SortedPosition(cols, n, c);
      InsertedColumn(a, rows, cols, q, c);
    }
  }

  lemma InsertedFirst(s: seq<int>, c: int, k: nat)
    requires k < |s|
    ensures Insert(s, 0, c)[0] == c && Insert(s, 0, c)[k + 1] == s[k]
  {
    hide Without;
    assert s[..0] + [c] + s[0..] == [c] + s;
  }

  lemma RepeatedColumnVanishes(a: Entries, rows: seq<int>, cols: seq<int>, c: int)
    requires |rows| == |cols| + 1 && c in cols
    ensures Det(a, rows, Insert(cols, 0, c)) == 0.0
  {
    hide Times, Sum, Det, Without, Insert;
    var k :| 0 <= k < |cols| && cols[k] == c;
    var all := Insert(cols, 0, c);
    InsertedFirst(cols, c, k);
    EqualRowsVanish(Transposed(a), all, rows, 0, k + 1);
    DetTransposed(a, rows, all);
  }

  /** Weight i times entry (rows[i], c) of M times entry (c, r) of N. */
  ghost function WeighedProduct(m: Matrix, x: Matrix, rows: seq<int>, cols: seq<int>, r: int): (int, int) -> real
    requires |rows| == |cols| + 1
  {
    (i, c) =>
      if 0 <= i < |rows| then
        var product := Times(Det(Entry(m), Without(rows, i), cols), DotTerm(m, x, rows[i], r)(c));
        if i % 2 == 0 then product else -product
      else 0.0
  }

  lemma WeighedRow(m: Matrix, x: Matrix, rows: seq<int>, cols: seq<int>, r: nat, i: nat, minor: real)
    requires IsSquare(m) && SameSize(m, x) && Product(m, x) == Identity(Rows(m))
    requires |rows| == |cols| + 1 && i < |rows| && 0 <= rows[i] < Rows(m) && r < Rows(m)
    requires minor == Det(Entry(m), Without(rows, i), cols)
    ensures RowSum(WeighedProduct(m, x, rows, cols, r), Rows(m))(i)
         == if rows[i] == r then (if i % 2 == 0 then minor else -minor) else 0.0
  {
    hide Times, Without, Sum, Det;
    var n := Rows(m);
    var even := i % 2 == 0;
    var f := DotTerm(m, x, rows[i], r);
    var g := c => WeighedProduct(m, x, rows, cols, r)(i, c);
    forall c | 0 <= c < n
      ensures g(c) == if even then Times(minor, f(c)) else -Times(minor, f(c))
    {
      assert WeighedProduct(m, x, rows, cols, r)(i, c) == if even then Times(minor, f(c)) else -Times(minor, f(c));
    }
    SumScaled(n, even, minor, f, g);
    ProductAt(m, x, rows[i], r);
    TimesZero(minor);
    TimesOne(minor);
  }

  lemma TimesOne(x: real)
    ensures Times(x, 1.0) == x
  {
  }

  lemma WeighedColumn(m: Matrix, x: Matrix, rows: seq<int>, cols: seq<int>, r: nat, c: nat)
    requires IsSquare(m) && SameSize(m, x)
    requires |rows| == |cols| + 1 && Increasing(rows, Rows(m)) && c < Rows(m)
    requires Sum(|rows|, Weighted(Entry(m), rows, cols, c)) == 0.0
    ensures ColumnSum(WeighedProduct(m, x, rows, cols, r), |rows|)(c) == 0.0
  {
    hide Times, Without, Sum, Det;
    var f := Weighted(Entry(m), rows, cols, c);
    var g := i => WeighedProduct(m, x, rows, cols, r)(i, c);
    var e := Entry(x)(c, r);
    forall i | 0 <= i < |rows|
      ensures g(i) == Times(e, f(i))
    {
      WeighedEntry(m, x, rows, cols, r, c, i);
    }
    SumScaled(|rows|, true, e, f, g);
    TimesZero(e);
  }

  lemma WeighedEntry(m: Matrix, x: Matrix, rows: seq<int>, cols: seq<int>, r: nat, c: nat, i: nat)
    requires IsSquare(m) && SameSize(m, x) && |rows| == |cols| + 1 && i < |rows|
    ensures WeighedProduct(m, x, rows, cols, r)(i, c) == Times(Entry(x)(c, r), Weighted(Entry(m), rows, cols, c)(i))
  {
    hide Times, Without, Sum, Det;
    var minor, y, e := Det(Entry(m), Without(rows, i), cols), Entry(m)(rows[i], c), Entry(x)(c, r);
    assert DotTerm(m, x, rows[i], r)(c) == Times(y, e);
    TimesRegroup(minor, y, e);
    TimesCommutes(minor, y);
    TimesNegate(e, Times(y, minor));
  }

  /** With a right inverse N, vanishing k-minors of M make the (k - 1)-minors vanish. */
  lemma MinorsBelowVanish(m: Matrix, x: Matrix, rows: seq<int>, cols: seq<int>)
    requires IsSquare(m) && SameSize(m, x) && Product(m, x) == Identity(Rows(m))
    requires |rows| == |cols| < Rows(m) && Increasing(rows, Rows(m)) && Increasing(cols, Rows(m))
    requires MinorsVanish(Entry(m), Rows(m), |rows| + 1)
    ensures Det(Entry(m), rows, cols) == 0.0
  {
    hide Times, Without, Sum, Det, MinorsVanish;
    var n, k := Rows(m), |rows| + 1;
    var p := MissingIndex(rows, n);
    var all := Insert(rows, p, p);
    var f := WeighedProduct(m, x, all, cols, p);
    forall c | 0 <= c < n
      ensures ColumnSum(f, k)(c) == 0.0
    {
      WeightedColumnVanishes(Entry(m), n, all, cols, c);
      WeighedColumn(m, x, all, cols, p, c);
    }
    SumZero(n, ColumnSum(f, k));
    SumSwap(k, n, f);
    forall i | 0 <= i < k && i != p
      ensures RowSum(f, n)(i) == 0.0
    {
      var minor := Det(Entry(m), Without(all, i), cols);
      WeighedRow(m, x, all, cols, p, i, minor);
      assert all[i] != all[p];
    }
    SumSingle(k, p, RowSum(f, n));
    var minor := Det(Entry(m), rows, cols);
    WeighedRow(m, x, all, cols, p, p, minor);
  }

  lemma {:induction false} AllMinorsVanish(m: Matrix, x: Matrix, k: nat)
    requires IsSquare(m) && SameSize(m, x) && Product(m, x) == Identity(Rows(m)) && DetOf(m) == 0.0
    requires k <= Rows(m)
    ensures MinorsVanish(Entry(m), Rows(m), k)
    decreases Rows(m) - k
  {
    hide Det;
    var n := Rows(m);
    if k < n { AllMinorsVanish(m, x, k + 1); }
    forall rows: seq<int>, cols: seq<int> | |rows| == k && |cols| == k && Increasing(rows, n) && Increasing(cols, n)
      ensures Det(Entry(m), rows, cols) == 0.0
    {
      if k < n {
        MinorsBelowVanish(m, x, rows, cols);
      } else {
        FullSelection(rows, n);
        FullSelection(cols, n);
      }
    }
  }

  /** Even a one-sided inverse forces a determinant other than zero. */
  lemma RightInverseNeedsDet(m: Matrix, x: Matrix)
    requires IsSquare(m) && SameSize(m, x) && Product(m, x) == Identity(Rows(m))
    ensures DetOf(m) != 0.0
  {
    hide Det;
    if DetOf(m) == 0.0 {
      AllMinorsVanish(m, x, 0);
      EmptyDet(Entry(m));
    }
  }

  lemma EmptyDet(a: Entries)
    ensures Det(a, [], []) == 1.0
  {
  }

  /** `inverse` throws exactly when no inverse exists. */
  lemma ThrowsIffSingular(m: Matrix)
    requires IsSquare(m)
    ensures InverseOf(m) == Err(HasNoInverse) <==> forall x: Matrix :: !IsInverse(m, x)
  {
    hide DetOf, Product, Quotient;
    if DetOf(m) == 0.0 {
      forall x: Matrix | SameSize(m, x)
        ensures !IsInverse(m, x)
      {
        if Product(m, x) == Identity(Rows(m)) { RightInverseNeedsDet(m, x); }
      }
    } else {
      AdjugateOverDetInverts(m);
    }
  }
}

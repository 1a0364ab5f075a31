/**
 The Laplace determinant of an unbounded square selection of rows and columns, and the expansions and
 sign rules the adjugate needs. A minor drops an index from a row or column list; entries never move.
 */
module Determinant {
  import opened Sums

  type Entries = (int, int) -> real

  /** Laplace expansion along the first selected row. */
  function Det(a: Entries, rows: seq<int>, cols: seq<int>): real
    requires |rows| == |cols|
    decreases |rows|
  {
    if |rows| == 0 then 1.0
    else
      Sum(|rows|, j =>
        if 0 <= j < |cols| then
          var product := Times(a(rows[0], cols[j]), Det(a, Without(rows, 0), Without(cols, j)));
          if j % 2 == 0 then product else -product
        else 0.0)
  }

  /** The j-th term of the expansion along row k. */
  function RowTerm(a: Entries, rows: seq<int>, cols: seq<int>, k: nat): int -> real
    requires |rows| == |cols| && k < |rows|
  {
    j =>
      if 0 <= j < |cols| then
        var product := Times(a(rows[k], cols[j]), Det(a, Without(rows, k), Without(cols, j)));
        if (k + j) % 2 == 0 then product else -product
      else 0.0
  }

  /** The j-th term of the expansion along row k, with its minor named. */
  lemma RowTermAt(a: Entries, rows: seq<int>, cols: seq<int>, k: nat, j: nat, minor: real)
    requires |rows| == |cols| && k < |rows| && j < |cols| && minor == Det(a, Without(rows, k), Without(cols, j))
    ensures RowTerm(a, rows, cols, k)(j) == if (k + j) % 2 == 0 then Times(a(rows[k], cols[j]), minor) else -Times(a(rows[k], cols[j]), minor)
  {
    hide Times, Without, Sum, Det;
  }

  lemma DetIsFirstRow(a: Entries, rows: seq<int>, cols: seq<int>)
    requires |rows| == |cols| && |rows| > 0
    ensures Det(a, rows, cols) == Sum(|rows|, RowTerm(a, rows, cols, 0))
  {
    hide Times, Without;
    SumEqual(|rows|, RowTerm(a, rows, cols, 0), j =>
      if 0 <= j < |cols| then
        var product := Times(a(rows[0], cols[j]), Det(a, Without(rows, 0), Without(cols, j)));
        if j % 2 == 0 then product else -product
      else 0.0);
  }

  lemma OneByOneDet(a: Entries, r: int, c: int)
    ensures Det(a, [r], [c]) == a(r, c)
  {
    DetIsFirstRow(a, [r], [c]);
    var f := RowTerm(a, [r], [c], 0);
    assert Det(a, Without([r], 0), Without([c], 0)) == 1.0;
    assert f(0) == a(r, c);
    assert Sum(1, f) == Sum(0, f) + f(0);
  }

  lemma TwoByTwoDet(a: Entries)
    ensures Det(a, [0, 1], [0, 1]) == a(0, 0) * a(1, 1) - a(0, 1) * a(1, 0)
  {
    hide Det;
    var r := [0, 1];
    DetIsFirstRow(a, r, r);
    var f := RowTerm(a, r, r, 0);
    assert Without(r, 0) == [1] && Without(r, 1) == [0];
    OneByOneDet(a, 1, 1);
    OneByOneDet(a, 1, 0);
    RowTermAt(a, r, r, 0, 0, a(1, 1));
    RowTermAt(a, r, r, 0, 1, a(1, 0));
    assert Sum(2, f) == Sum(1, f) + f(1) && Sum(1, f) == Sum(0, f) + f(0);
  }

  function Transposed(a: Entries): Entries {
    (i, j) => a(j, i)
  }

  // ---------- only the selected entries matter ----------

  lemma {:induction false} DetDependsOnSelection(a: Entries, rows: seq<int>, cols: seq<int>, b: Entries, rows': seq<int>, cols': seq<int>)
    requires |rows| == |cols| == |rows'| == |cols'|
    requires forall i, j :: 0 <= i < |rows| && 0 <= j < |cols| ==> a(rows[i], cols[j]) == b(rows'[i], cols'[j])
    ensures Det(a, rows, cols) == Det(b, rows', cols')
    decreases |rows|
  {
    hide Times, Without;
    if |rows| > 0 {
      forall j | 0 <= j < |rows|
        ensures RowTerm(a, rows, cols, 0)(j) == RowTerm(b, rows', cols', 0)(j)
      {
        DetDependsOnSelection(a, Without(rows, 0), Without(cols, j), b, Without(rows', 0), Without(cols', j));
        var minor := Det(a, Without(rows, 0), Without(cols, j));
        RowTermAt(a, rows, cols, 0, j, minor);
        RowTermAt(b, rows', cols', 0, j, minor);
      }
      SumEqual(|rows|, RowTerm(a, rows, cols, 0), RowTerm(b, rows', cols', 0));
      DetIsFirstRow(a, rows, cols);
      DetIsFirstRow(b, rows', cols');
    }
  }

  // ---------- swapping neighbouring rows ----------

  function SwapNext(rows: seq<int>, i: nat): (r: seq<int>)
    requires i + 1 < |rows|
    ensures |r| == |rows|
  {
    rows[i := rows[i + 1]][i + 1 := rows[i]]
  }

  /** Columns without two of them. */
  function WithoutTwo(cols: seq<int>, j: nat, k: nat): (r: seq<int>)
    requires j < |cols| && k < |cols| && j != k
    ensures |r| == |cols| - 2
  {
    if k < j then Without(Without(cols, j), k) else Without(Without(cols, k), j)
  }

  /** The term of the two-row expansion that takes column j in the first row and column k in the second. */
  function PairTerm(a: Entries, rows: seq<int>, cols: seq<int>): (int, int) -> real
    requires |rows| == |cols| >= 2
  {
    (j, k) =>
      if 0 <= j < |cols| && 0 <= k < |cols| && j != k then
        var product := Times(a(rows[0], cols[j]), Times(a(rows[1], cols[k]), Det(a, Without(Without(rows, 0), 0), WithoutTwo(cols, j, k))));
        if (j + if k < j then k else k - 1) % 2 == 0 then product else -product
      else 0.0
  }

  lemma PairTermAt(a: Entries, rows: seq<int>, cols: seq<int>, j: nat, k: nat, l: nat, d: real)
    requires |rows| == |cols| >= 2 && j < |cols| && k < |cols| && j != k && l == if k < j then k else k - 1
    requires d == Det(a, Without(Without(rows, 0), 0), WithoutTwo(cols, j, k))
    ensures var product := Times(a(rows[0], cols[j]), Times(a(rows[1], cols[k]), d));
      PairTerm(a, rows, cols)(j, k) == if (j + l) % 2 == 0 then product else -product
  {
    hide Times, Without, WithoutTwo, Sum, Det;
    assert j + l == j + if k < j then k else k - 1;
  }

  lemma WithoutTwice(cols: seq<int>, j: nat, k: nat)
    requires j < |cols| && k < |cols| && j != k
    ensures Without(Without(cols, j), if k < j then k else k - 1) == WithoutTwo(cols, j, k)
  {
    hide Times, Without;
  }

  lemma PairEntry(a: Entries, rows: seq<int>, cols: seq<int>, j: nat, k: nat)
    requires |rows| == |cols| >= 2 && j < |cols| && k < |cols| && j != k
    ensures var product := Times(a(rows[0], cols[j]), RowTerm(a, Without(rows, 0), Without(cols, j), 0)(if k < j then k else k - 1));
      PairTerm(a, rows, cols)(j, k) == if j % 2 == 0 then product else -product
  {
    hide Times, Without, Sum, Det;
    var l := if k < j then k else k - 1;
    var rows1, colsj := Without(rows, 0), Without(cols, j);
    var d := Det(a, Without(rows1, 0), WithoutTwo(cols, j, k));
    WithoutTwice(cols, j, k);
    RowTermAt(a, rows1, colsj, 0, l, d);
    PairTermAt(a, rows, cols, j, k, l, d);
    MergeSigns(j, l, a(rows[0], cols[j]), Times(a(rows[1], cols[k]), d),
               RowTerm(a, rows1, colsj, 0)(l), PairTerm(a, rows, cols)(j, k));
  }

  /** Two alternating signs multiply to the sign of the summed exponents. */
  lemma MergeSigns(j: nat, l: nat, x: real, y: real, inner: real, outer: real)
    requires inner == if l % 2 == 0 then y else -y
    requires outer == if (j + l) % 2 == 0 then Times(x, y) else -Times(x, y)
    ensures outer == if j % 2 == 0 then Times(x, inner) else -Times(x, inner)
  {
    hide Times, Without;
    TimesNegate(x, y);
  }

  /** n - 1 terms scaled by c, listed as n terms of which the j-th is zero. */
  lemma ScaledSkip(n: nat, j: nat, even: bool, c: real, inner: int -> real, row: int -> real)
    requires j < n && row(j) == 0.0
    requires forall k :: 0 <= k < n && k != j ==>
        row(k) == var product := Times(c, inner(if k < j then k else k - 1)); if even then product else -product
    ensures Sum(n, row) == if even then Times(c, Sum(n - 1, inner)) else -Times(c, Sum(n - 1, inner))
  {
    hide Times, Without, Sum, Det;
    var skipped := k => if k == j then 0.0 else inner(if k < j then k else k - 1);
    SumSkip(n, j, inner);
    SumEqual(n, skipped, k => if k == j then 0.0 else inner(if k < j then k else k - 1));
    TimesZero(c);
    SumScaled(n, even, c, skipped, row);
  }

  lemma PairRowSum(a: Entries, rows: seq<int>, cols: seq<int>, j: nat, minor: real)
    requires |rows| == |cols| >= 2 && j < |cols|
    requires minor == Sum(|rows| - 1, RowTerm(a, Without(rows, 0), Without(cols, j), 0))
    ensures var product := Times(a(rows[0], cols[j]), minor);
      RowSum(PairTerm(a, rows, cols), |cols|)(j) == if j % 2 == 0 then product else -product
  {
    hide Times, Without, Sum, Det;
    var inner := RowTerm(a, Without(rows, 0), Without(cols, j), 0);
    var row := k => PairTerm(a, rows, cols)(j, k);
    var even, c := j % 2 == 0, a(rows[0], cols[j]);
    forall k | 0 <= k < |cols| && k != j
      ensures row(k) == var product := Times(c, inner(if k < j then k else k - 1)); if even then product else -product
    {
      PairEntry(a, rows, cols, j, k);
    }
    assert PairTerm(a, rows, cols)(j, j) == 0.0;
    ScaledSkip(|cols|, j, even, c, inner, row);
  }

  lemma FirstRowTermAsPairs(a: Entries, rows: seq<int>, cols: seq<int>, j: nat)
    requires |rows| == |cols| >= 2 && j < |cols|
    ensures RowTerm(a, rows, cols, 0)(j) == RowSum(PairTerm(a, rows, cols), |cols|)(j)
  {
    hide Times, Without, Sum, Det;
    DetIsFirstRow(a, Without(rows, 0), Without(cols, j));
    var minor := Det(a, Without(rows, 0), Without(cols, j));
    PairRowSum(a, rows, cols, j, minor);
    RowTermAt(a, rows, cols, 0, j, minor);
  }

  lemma DetAsPairs(a: Entries, rows: seq<int>, cols: seq<int>)
    requires |rows| == |cols| >= 2
    ensures Det(a, rows, cols) == Sum(|cols|, RowSum(PairTerm(a, rows, cols), |cols|))
  {
    hide Times, Without, Sum, Det;
    forall j | 0 <= j < |cols|
      ensures RowTerm(a, rows, cols, 0)(j) == RowSum(PairTerm(a, rows, cols), |cols|)(j)
    {
      FirstRowTermAsPairs(a, rows, cols, j);
    }
    SumEqual(|cols|, RowTerm(a, rows, cols, 0), RowSum(PairTerm(a, rows, cols), |cols|));
    DetIsFirstRow(a, rows, cols);
  }

  lemma PairTermSwapped(a: Entries, rows: seq<int>, cols: seq<int>, j: nat, k: nat)
    requires |rows| == |cols| >= 2 && j < |cols| && k < |cols|
    ensures PairTerm(a, SwapNext(rows, 0), cols)(j, k) == -PairTerm(a, rows, cols)(k, j)
  {
    hide Times, Without, Sum, Det;
    if j != k {
      var rows' := SwapNext(rows, 0);
      assert Without(Without(rows', 0), 0) == Without(Without(rows, 0), 0);
      PairSigns(a, rows, cols, j, k);
    }
  }

  lemma PairSigns(a: Entries, rows: seq<int>, cols: seq<int>, j: nat, k: nat)
    requires |rows| == |cols| >= 2 && j < |cols| && k < |cols| && j != k
    requires Without(Without(SwapNext(rows, 0), 0), 0) == Without(Without(rows, 0), 0)
    ensures PairTerm(a, SwapNext(rows, 0), cols)(j, k) == -PairTerm(a, rows, cols)(k, j)
  {
    hide Times, Without, Sum, Det, PairTerm;
    var rows' := SwapNext(rows, 0);
    var d := Det(a, Without(Without(rows, 0), 0), WithoutTwo(cols, k, j));
    TimesExchange(a(rows'[0], cols[j]), a(rows'[1], cols[k]), d);
    if k < j {
      PairTermAt(a, rows', cols, j, k, k, d);
      PairTermAt(a, rows, cols, k, j, j - 1, d);
    } else {
      PairTermAt(a, rows', cols, j, k, k - 1, d);
      PairTermAt(a, rows, cols, k, j, j, d);
    }
  }

  lemma PairSumSwapped(a: Entries, rows: seq<int>, cols: seq<int>, j: nat)
    requires |rows| == |cols| >= 2 && j < |cols|
    ensures RowSum(PairTerm(a, SwapNext(rows, 0), cols), |cols|)(j) == -ColumnSum(PairTerm(a, rows, cols), |cols|)(j)
  {
    hide Times, Without, Sum, Det;
    var n := |cols|;
    var f, f' := PairTerm(a, rows, cols), PairTerm(a, SwapNext(rows, 0), cols);
    var column := k => f(k, j);
    var row := k => f'(j, k);
    forall k | 0 <= k < n
      ensures row(k) == -column(k)
    {
      PairTermSwapped(a, rows, cols, j, k);
    }
    SumNegated(n, column, row);
  }

  lemma SwapFirstTwoNegates(a: Entries, rows: seq<int>, cols: seq<int>)
    requires |rows| == |cols| >= 2
    ensures Det(a, SwapNext(rows, 0), cols) == -Det(a, rows, cols)
  {
    hide Times, Without, Sum, Det;
    var n := |cols|;
    var f, f' := PairTerm(a, rows, cols), PairTerm(a, SwapNext(rows, 0), cols);
    DetAsPairs(a, rows, cols);
    DetAsPairs(a, SwapNext(rows, 0), cols);
    SumSwap(n, n, f);
    forall j | 0 <= j < n
      ensures RowSum(f', n)(j) == -ColumnSum(f, n)(j)
    {
      PairSumSwapped(a, rows, cols, j);
    }
    SumNegated(n, ColumnSum(f, n), RowSum(f', n));
  }

  /** Swapping two neighbouring rows changes the sign. */
  lemma {:induction false} SwapNextNegates(a: Entries, rows: seq<int>, cols: seq<int>, i: nat)
    requires |rows| == |cols| && i + 1 < |rows|
    ensures Det(a, SwapNext(rows, i), cols) == -Det(a, rows, cols)
    decreases |rows|
  {
    hide Times, Without, Sum, Det;
    if i == 0 {
      SwapFirstTwoNegates(a, rows, cols);
    } else {
      var n := |rows|;
      var rows' := SwapNext(rows, i);
      assert Without(rows', 0) == SwapNext(Without(rows, 0), i - 1);
      forall j | 0 <= j < n
        ensures RowTerm(a, rows', cols, 0)(j) == -RowTerm(a, rows, cols, 0)(j)
      {
        SwapNextNegates(a, Without(rows, 0), Without(cols, j), i - 1);
        var minor := Det(a, Without(rows, 0), Without(cols, j));
        RowTermAt(a, rows, cols, 0, j, minor);
        RowTermAt(a, rows', cols, 0, j, -minor);
        TimesNegate(a(rows[0], cols[j]), minor);
      }
      SumNegated(n, RowTerm(a, rows, cols, 0), RowTerm(a, rows', cols, 0));
      DetIsFirstRow(a, rows, cols);
      DetIsFirstRow(a, rows', cols);
    }
  }

  // ---------- expansion along any row ----------

  /** The determinant expands along every row, not only the first. */
  lemma {:induction false} ExpandAlongRow(a: Entries, rows: seq<int>, cols: seq<int>, k: nat)
    requires |rows| == |cols| && k < |rows|
    ensures Det(a, rows, cols) == Sum(|rows|, RowTerm(a, rows, cols, k))
    decreases k
  {
    hide Times, Without, Sum, Det;
    if k == 0 {
      DetIsFirstRow(a, rows, cols);
    } else {
      var n := |rows|;
      var rows' := SwapNext(rows, k - 1);
      SwapNextNegates(a, rows, cols, k - 1);
      ExpandAlongRow(a, rows', cols, k - 1);
      assert Without(rows', k - 1) == Without(rows, k);
      forall j | 0 <= j < n
        ensures RowTerm(a, rows, cols, k)(j) == -RowTerm(a, rows', cols, k - 1)(j)
      {
      }
      SumNegated(n, RowTerm(a, rows', cols, k - 1), RowTerm(a, rows, cols, k));
    }
  }

  /** Two equal rows make the determinant zero. */
  lemma {:induction false} EqualRowsVanish(a: Entries, rows: seq<int>, cols: seq<int>, i: nat, k: nat)
    requires |rows| == |cols| && i < k < |rows| && rows[i] == rows[k]
    ensures Det(a, rows, cols) == 0.0
    decreases k
  {
    hide Times, Without, Sum, Det;
    var rows' := SwapNext(rows, k - 1);
    SwapNextNegates(a, rows, cols, k - 1);
    if i == k - 1 {
      assert rows' == rows;
    } else {
      EqualRowsVanish(a, rows', cols, i, k - 1);
    }
  }

  /** The entries of row i against the cofactors of row k. */
  function AlienTerm(a: Entries, rows: seq<int>, cols: seq<int>, i: nat, k: nat): int -> real
    requires |rows| == |cols| && i < |rows| && k < |rows|
  {
    j =>
      if 0 <= j < |cols| then
        var product := Times(a(rows[i], cols[j]), Det(a, Without(rows, k), Without(cols, j)));
        if (k + j) % 2 == 0 then product else -product
      else 0.0
  }

  /** The entries of one row against the cofactors of another sum to zero. */
  lemma AlienCofactorsVanish(a: Entries, rows: seq<int>, cols: seq<int>, i: nat, k: nat)
    requires |rows| == |cols| && i < |rows| && k < |rows| && i != k
    ensures Sum(|rows|, AlienTerm(a, rows, cols, i, k)) == 0.0
  {
    hide Times, Without, Sum, Det;
    var n := |rows|;
    var rows' := rows[k := rows[i]];
    EqualRowsVanish(a, rows', cols, if i < k then i else k, if i < k then k else i);
    ExpandAlongRow(a, rows', cols, k);
    assert Without(rows', k) == Without(rows, k);
    forall j | 0 <= j < n
      ensures RowTerm(a, rows', cols, k)(j) == AlienTerm(a, rows, cols, i, k)(j)
    {
    }
    SumEqual(n, RowTerm(a, rows', cols, k), AlienTerm(a, rows, cols, i, k));
  }

  // ---------- expansion along the first column, transposition ----------

  function ColumnTerm(a: Entries, rows: seq<int>, cols: seq<int>): int -> real
    requires |rows| == |cols| && |rows| > 0
  {
    i =>
      if 0 <= i < |rows| then
        var product := Times(a(rows[i], cols[0]), Det(a, Without(rows, i), Without(cols, 0)));
        if i % 2 == 0 then product else -product
      else 0.0
  }

  lemma ColumnTermAt(a: Entries, rows: seq<int>, cols: seq<int>, i: nat, minor: real)
    requires |rows| == |cols| && i < |rows| && minor == Det(a, Without(rows, i), Without(cols, 0))
    ensures ColumnTerm(a, rows, cols)(i) == if i % 2 == 0 then Times(a(rows[i], cols[0]), minor) else -Times(a(rows[i], cols[0]), minor)
  {
    hide Times, Without, Sum, Det;
  }

  /** The term that takes row i + 1 in the first column and column j + 1 in the first row. */
  function CrossTerm(a: Entries, rows: seq<int>, cols: seq<int>): (int, int) -> real
    requires |rows| == |cols| >= 2
  {
    (i, j) =>
      if 0 <= i < |rows| - 1 && 0 <= j < |cols| - 1 then
        var product := Times(a(rows[0], cols[j + 1]), Times(a(rows[i + 1], cols[0]), Det(a, Without(Without(rows, 0), i), Without(Without(cols, 0), j))));
        if (i + j + 1) % 2 == 0 then product else -product
      else 0.0
  }

  lemma CrossTermAt(a: Entries, rows: seq<int>, cols: seq<int>, i: nat, j: nat, d: real)
    requires |rows| == |cols| >= 2 && i < |rows| - 1 && j < |cols| - 1
    requires d == Det(a, Without(Without(rows, 0), i), Without(Without(cols, 0), j))
    ensures var product := Times(a(rows[0], cols[j + 1]), Times(a(rows[i + 1], cols[0]), d));
      CrossTerm(a, rows, cols)(i, j) == if (i + j + 1) % 2 == 0 then product else -product
  {
    hide Times, Without, Sum, Det;
  }

  lemma {:induction false} ExpandAlongFirstColumn(a: Entries, rows: seq<int>, cols: seq<int>)
    requires |rows| == |cols| && |rows| > 0
    ensures Det(a, rows, cols) == Sum(|rows|, ColumnTerm(a, rows, cols))
    decreases |rows|, 2
  {
    hide Times, Without, Sum, Det;
    DetIsFirstRow(a, rows, cols);
    if |rows| == 1 {
      SingleColumn(a, rows, cols);
    } else {
      var m := |rows| - 1;
      var f := CrossTerm(a, rows, cols);
      forall j | 0 <= j < m
        ensures RowTerm(a, rows, cols, 0)(j + 1) == ColumnSum(f, m)(j)
      {
        RowTermAsCross(a, rows, cols, j);
      }
      ColumnAsCross(a, rows, cols, f);
      SumTail(m, RowTerm(a, rows, cols, 0), ColumnSum(f, m));
      SumSwap(m, m, f);
      CornerTerm(a, rows, cols);
    }
  }

  lemma CornerTerm(a: Entries, rows: seq<int>, cols: seq<int>)
    requires |rows| == |cols| && |rows| > 0
    ensures RowTerm(a, rows, cols, 0)(0) == ColumnTerm(a, rows, cols)(0)
  {
    hide Times, Without, Sum, Det;
    var corner := Det(a, Without(rows, 0), Without(cols, 0));
    RowTermAt(a, rows, cols, 0, 0, corner);
    ColumnTermAt(a, rows, cols, 0, corner);
  }

  lemma SingleColumn(a: Entries, rows: seq<int>, cols: seq<int>)
    requires |rows| == |cols| == 1
    ensures Sum(1, RowTerm(a, rows, cols, 0)) == Sum(1, ColumnTerm(a, rows, cols))
  {
    hide Times, Without, Det;
    CornerTerm(a, rows, cols);
    var row, col := RowTerm(a, rows, cols, 0), ColumnTerm(a, rows, cols);
    assert Sum(1, row) == row(0) && Sum(1, col) == col(0);
  }

  lemma ColumnAsCross(a: Entries, rows: seq<int>, cols: seq<int>, f: (int, int) -> real)
    requires |rows| == |cols| >= 2 && f == CrossTerm(a, rows, cols)
    ensures Sum(|rows|, ColumnTerm(a, rows, cols)) == ColumnTerm(a, rows, cols)(0) + Sum(|rows| - 1, RowSum(f, |rows| - 1))
  {
    hide Times, Without, Sum, Det;
    var m := |rows| - 1;
    forall i | 0 <= i < m
      ensures ColumnTerm(a, rows, cols)(i + 1) == RowSum(f, m)(i)
    {
      ColumnTermAsCross(a, rows, cols, i);
    }
    SumTail(m, ColumnTerm(a, rows, cols), RowSum(f, m));
  }

  lemma RowCrossEntry(a: Entries, rows: seq<int>, cols: seq<int>, i: nat, j: nat)
    requires |rows| == |cols| >= 2 && i < |rows| - 1 && j < |cols| - 1
    ensures var product := Times(a(rows[0], cols[j + 1]), ColumnTerm(a, Without(rows, 0), Without(cols, j + 1))(i));
      CrossTerm(a, rows, cols)(i, j) == if (j + 1) % 2 == 0 then product else -product
  {
    hide Times, Without, Sum, Det;
    assert Without(Without(cols, j + 1), 0) == Without(Without(cols, 0), j);
    var d := Det(a, Without(Without(rows, 0), i), Without(Without(cols, 0), j));
    ColumnTermAt(a, Without(rows, 0), Without(cols, j + 1), i, d);
    CrossTermAt(a, rows, cols, i, j, d);
    MergeSigns(j + 1, i, a(rows[0], cols[j + 1]), Times(a(rows[i + 1], cols[0]), d),
               ColumnTerm(a, Without(rows, 0), Without(cols, j + 1))(i), CrossTerm(a, rows, cols)(i, j));
  }

  lemma ColumnCrossEntry(a: Entries, rows: seq<int>, cols: seq<int>, i: nat, j: nat)
    requires |rows| == |cols| >= 2 && i < |rows| - 1 && j < |cols| - 1
    ensures var product := Times(a(rows[i + 1], cols[0]), RowTerm(a, Without(rows, i + 1), Without(cols, 0), 0)(j));
      CrossTerm(a, rows, cols)(i, j) == if (i + 1) % 2 == 0 then product else -product
  {
    hide Times, Without, Sum, Det;
    assert Without(Without(rows, i + 1), 0) == Without(Without(rows, 0), i);
    var d := Det(a, Without(Without(rows, 0), i), Without(Without(cols, 0), j));
    TimesExchange(a(rows[i + 1], cols[0]), a(rows[0], cols[j + 1]), d);
    RowTermAt(a, Without(rows, i + 1), Without(cols, 0), 0, j, d);
    CrossTermAt(a, rows, cols, i, j, d);
    MergeSigns(i + 1, j, a(rows[i + 1], cols[0]), Times(a(rows[0], cols[j + 1]), d),
               RowTerm(a, Without(rows, i + 1), Without(cols, 0), 0)(j), CrossTerm(a, rows, cols)(i, j));
  }

  lemma CrossColumnSum(a: Entries, rows: seq<int>, cols: seq<int>, j: nat, minor: real)
    requires |rows| == |cols| >= 2 && j < |cols| - 1
    requires minor == Sum(|rows| - 1, ColumnTerm(a, Without(rows, 0), Without(cols, j + 1)))
    ensures var product := Times(a(rows[0], cols[j + 1]), minor);
      ColumnSum(CrossTerm(a, rows, cols), |rows| - 1)(j) == if (j + 1) % 2 == 0 then product else -product
  {
    hide Times, Without, Sum, Det;
    var column := i => CrossTerm(a, rows, cols)(i, j);
    var inner := ColumnTerm(a, Without(rows, 0), Without(cols, j + 1));
    var even, c := (j + 1) % 2 == 0, a(rows[0], cols[j + 1]);
    forall i | 0 <= i < |rows| - 1
      ensures column(i) == if even then Times(c, inner(i)) else -Times(c, inner(i))
    {
      RowCrossEntry(a, rows, cols, i, j);
    }
    SumScaled(|rows| - 1, even, c, inner, column);
  }

  lemma {:induction false} RowTermAsCross(a: Entries, rows: seq<int>, cols: seq<int>, j: nat)
    requires |rows| == |cols| >= 2 && j < |cols| - 1
    ensures RowTerm(a, rows, cols, 0)(j + 1) == ColumnSum(CrossTerm(a, rows, cols), |rows| - 1)(j)
    decreases |rows|, 0
  {
    hide Times, Without, Sum, Det;
    var rows1, colsj := Without(rows, 0), Without(cols, j + 1);
    ExpandAlongFirstColumn(a, rows1, colsj);
    var minor := Det(a, rows1, colsj);
    CrossColumnSum(a, rows, cols, j, minor);
    RowTermAt(a, rows, cols, 0, j + 1, minor);
  }

  lemma ColumnTermAsCross(a: Entries, rows: seq<int>, cols: seq<int>, i: nat)
    requires |rows| == |cols| >= 2 && i < |rows| - 1
    ensures ColumnTerm(a, rows, cols)(i + 1) == RowSum(CrossTerm(a, rows, cols), |rows| - 1)(i)
  {
    hide Times, Without, Sum, Det;
    var m := |rows| - 1;
    var rowsi, cols1 := Without(rows, i + 1), Without(cols, 0);
    var row := j => CrossTerm(a, rows, cols)(i, j);
    forall j | 0 <= j < m
      ensures row(j) == var product := Times(a(rows[i + 1], cols[0]), RowTerm(a, rowsi, cols1, 0)(j)); if (i + 1) % 2 == 0 then product else -product
    {
      ColumnCrossEntry(a, rows, cols, i, j);
    }
    SumScaled(m, (i + 1) % 2 == 0, a(rows[i + 1], cols[0]), RowTerm(a, rowsi, cols1, 0), row);
    DetIsFirstRow(a, rowsi, cols1);
    var minor := Det(a, rowsi, cols1);
    ColumnTermAt(a, rows, cols, i + 1, minor);
  }

  /** A matrix and its transpose have the same determinant. */
  lemma {:induction false} DetTransposed(a: Entries, rows: seq<int>, cols: seq<int>)
    requires |rows| == |cols|
    ensures Det(Transposed(a), cols, rows) == Det(a, rows, cols)
    decreases |rows|
  {
    hide Times, Without;
    if |rows| > 0 {
      ExpandAlongFirstColumn(Transposed(a), cols, rows);
      forall j | 0 <= j < |rows|
        ensures RowTerm(a, rows, cols, 0)(j) == ColumnTerm(Transposed(a), cols, rows)(j)
      {
        DetTransposed(a, Without(rows, 0), Without(cols, j));
      }
      SumEqual(|rows|, RowTerm(a, rows, cols, 0), ColumnTerm(Transposed(a), cols, rows));
      DetIsFirstRow(a, rows, cols);
    }
  }
}

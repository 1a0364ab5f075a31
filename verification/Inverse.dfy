/** Determinant, adjugate and inverse of a square matrix: what `cofactor` and `inverse` return and when that is an inverse. */
module Inverse {
  import opened Wrappers
  import opened Sums
  import opened Determinant
  import opened MatrixAlgebra

  ghost function Range(n: nat): (r: seq<int>)
    ensures |r| == n && forall i :: 0 <= i < n ==> r[i] == i
  {
    seq(n, i => i)
  }

  /** The Laplace determinant of the leading size x size block. */
  ghost function LeadingDet(a: Entries, size: nat): real {
    Det(a, Range(size), Range(size))
  }

  /** What `determine` returns: it answers 0 for a size below one. */
  ghost function Determine(a: Entries, size: int): real {
    if size <= 0 then 0.0 else LeadingDet(a, size)
  }

  /** The determinant depends only on the leading block. */
  lemma LeadingBlockOnly(a: Entries, b: Entries, size: nat)
    requires forall i, j :: 0 <= i < size && 0 <= j < size ==> a(i, j) == b(i, j)
    ensures LeadingDet(a, size) == LeadingDet(b, size)
  {
    DetDependsOnSelection(a, Range(size), Range(size), b, Range(size), Range(size));
  }

  ghost function DetOf(m: Matrix): real
    requires IsSquare(m)
  {
    LeadingDet(Entry(m), Rows(m))
  }

  /** The determinant of m without row i and column j, with its sign. */
  ghost function Cofactor(m: Matrix): (int, int) -> real
    requires IsSquare(m)
  {
    (i, j) =>
      if 0 <= i < Rows(m) && 0 <= j < Rows(m) then
        var minor := Det(Entry(m), Without(Range(Rows(m)), i), Without(Range(Rows(m)), j));
        if (i + j) % 2 == 0 then minor else -minor
      else 0.0
  }

  /** The transposed matrix of cofactors. */
  ghost function Adjugate(m: Matrix): Matrix
    requires IsSquare(m)
  {
    Build(Rows(m), Rows(m), (i, j) => Cofactor(m)(j, i))
  }

  /** What `cofactor` returns: the adjugate, except that a 1 x 1 matrix gives 0 (its minor has size 0). */
  ghost function CofactorResult(m: Matrix): Matrix
    requires IsSquare(m)
  {
    if Rows(m) == 1 then [[0.0]] else Adjugate(m)
  }

  ghost function WithUnitCorner(m: Matrix): Matrix {
    m[0 := m[0][0 := 1.0]]
  }

  datatype MatrixError = HasNoInverse | SizeMismatch

  /** What `inverse` returns or throws. */
  ghost function InverseOf(m: Matrix): Result<Matrix, MatrixError>
    requires IsSquare(m)
  {
    var d := DetOf(m);
    if d == 0.0 then Err(HasNoInverse)
    else if d == 1.0 then Ok(WithUnitCorner(m))
    else Ok(Quotient(CofactorResult(m), d))
  }

  ghost predicate IsInverse(m: Matrix, x: Matrix)
    requires IsSquare(m)
  {
    && SameSize(m, x)
    && Product(m, x) == Identity(Rows(m))
    && Product(x, m) == Identity(Rows(m))
  }

  // ---------- the adjugate ----------

  lemma AdjugateAt(m: Matrix, i: nat, j: nat, minor: real)
    requires IsSquare(m) && i < Rows(m) && j < Rows(m)
    requires minor == Det(Entry(m), Without(Range(Rows(m)), j), Without(Range(Rows(m)), i))
    ensures Adjugate(m)[i][j] == Entry(Adjugate(m))(i, j) == Cofactor(m)(j, i) == if (i + j) % 2 == 0 then minor else -minor
  {
    hide Det, Without;
    EntryIs(Adjugate(m));
  }

  lemma AlienTermAt(a: Entries, rows: seq<int>, cols: seq<int>, i: nat, k: nat, j: nat, minor: real)
    requires |rows| == |cols| && i < |rows| && k < |rows| && j < |cols|
    requires minor == Det(a, Without(rows, k), Without(cols, j))
    ensures AlienTerm(a, rows, cols, i, k)(j) == if (k + j) % 2 == 0 then Times(a(rows[i], cols[j]), minor) else -Times(a(rows[i], cols[j]), minor)
  {
    hide Det, Without, Times;
  }

  lemma AdjugateTermAt(m: Matrix, i: nat, k: nat, j: nat)
    requires IsSquare(m) && i < Rows(m) && k < Rows(m) && j < Rows(m)
    ensures DotTerm(m, Adjugate(m), i, k)(j) == AlienTerm(Entry(m), Range(Rows(m)), Range(Rows(m)), i, k)(j)
  {
    hide Det, Without, Times;
    var r := Range(Rows(m));
    var minor := Det(Entry(m), Without(r, k), Without(r, j));
    AdjugateAt(m, j, k, minor);
    AlienTermAt(Entry(m), r, r, i, k, j, minor);
    TimesNegate(Entry(m)(i, j), minor);
    assert DotTerm(m, Adjugate(m), i, k)(j) == Times(Entry(m)(i, j), Entry(Adjugate(m))(j, k));
  }

  lemma AlienIsRowTerm(a: Entries, rows: seq<int>, cols: seq<int>, k: nat)
    requires |rows| == |cols| && k < |rows|
    ensures Sum(|rows|, AlienTerm(a, rows, cols, k, k)) == Det(a, rows, cols)
  {
    hide Det, Without, Times, Sum;
    ExpandAlongRow(a, rows, cols, k);
    forall j | 0 <= j < |rows|
      ensures AlienTerm(a, rows, cols, k, k)(j) == RowTerm(a, rows, cols, k)(j)
    {
    }
    SumEqual(|rows|, AlienTerm(a, rows, cols, k, k), RowTerm(a, rows, cols, k));
  }

  lemma TimesAdjugateAt(m: Matrix, i: nat, k: nat)
    requires IsSquare(m) && i < Rows(m) && k < Rows(m)
    ensures Dot(m, Adjugate(m), i, k) == if i == k then DetOf(m) else 0.0
  {
    hide Det, Without, Times, Sum;
    var r := Range(Rows(m));
    forall j | 0 <= j < Rows(m)
      ensures DotTerm(m, Adjugate(m), i, k)(j) == AlienTerm(Entry(m), r, r, i, k)(j)
    {
      AdjugateTermAt(m, i, k, j);
    }
    SumEqual(Rows(m), DotTerm(m, Adjugate(m), i, k), AlienTerm(Entry(m), r, r, i, k));
    if i == k { AlienIsRowTerm(Entry(m), r, r, k); } else { AlienCofactorsVanish(Entry(m), r, r, i, k); }
  }

  lemma ScaledIdentityAt(c: real, n: nat, i: nat, j: nat)
    requires i < n && j < n
    ensures Scale(c, Identity(n))[i][j] == if i == j then c else 0.0
  {
    EntryIs(Identity(n));
    assert Times(c, Entry(Identity(n))(i, j)) == if i == j then c else 0.0;
  }

  /** M * adj(M) = det(M) * I. */
  lemma TimesAdjugate(m: Matrix)
    requires IsSquare(m)
    ensures Product(m, Adjugate(m)) == Scale(DetOf(m), Identity(Rows(m)))
  {
    hide Dot, DetOf, Times;
    var n := Rows(m);
    var l, r := Product(m, Adjugate(m)), Scale(DetOf(m), Identity(n));
    forall i, j | 0 <= i < n && 0 <= j < n
      ensures l[i][j] == r[i][j]
    {
      ProductAt(m, Adjugate(m), i, j);
      TimesAdjugateAt(m, i, j);
      ScaledIdentityAt(DetOf(m), n, i, j);
    }
    EqualMatrices(l, r);
  }

  lemma TransposedEntries(m: Matrix, rows: seq<int>, cols: seq<int>)
    requires IsSquare(m) && |rows| == |cols|
    requires forall i :: 0 <= i < |rows| ==> 0 <= rows[i] < Rows(m) && 0 <= cols[i] < Rows(m)
    ensures Det(Entry(Transpose(m)), cols, rows) == Det(Entry(m), rows, cols)
  {
    hide Det;
    DetTransposed(Entry(m), rows, cols);
    forall i, j | 0 <= i < |rows| && 0 <= j < |cols|
      ensures Entry(Transpose(m))(cols[i], rows[j]) == Transposed(Entry(m))(cols[i], rows[j])
    {
      TransposeAt(m, cols[i], rows[j]);
    }
    DetDependsOnSelection(Entry(Transpose(m)), cols, rows, Transposed(Entry(m)), cols, rows);
  }

  lemma DetOfTranspose(m: Matrix)
    requires IsSquare(m)
    ensures DetOf(Transpose(m)) == DetOf(m)
  {
    TransposedEntries(m, Range(Rows(m)), Range(Rows(m)));
  }

  /** adj(M^T) = adj(M)^T. */
  lemma AdjugateOfTranspose(m: Matrix)
    requires IsSquare(m)
    ensures Adjugate(Transpose(m)) == Transpose(Adjugate(m))
  {
    hide Det, Without;
    var n := Rows(m);
    var r := Range(n);
    forall i, j | 0 <= i < n && 0 <= j < n
      ensures Adjugate(Transpose(m))[i][j] == Transpose(Adjugate(m))[i][j]
    {
      TransposeAt(Adjugate(m), i, j);
      TransposedEntries(m, Without(r, i), Without(r, j));
      var minor := Det(Entry(m), Without(r, i), Without(r, j));
      AdjugateAt(m, j, i, minor);
      AdjugateAt(Transpose(m), i, j, minor);
    }
    EqualMatrices(Adjugate(Transpose(m)), Transpose(Adjugate(m)));
  }

  lemma TransposeScaledIdentity(c: real, n: nat)
    requires n >= 1
    ensures Transpose(Scale(c, Identity(n))) == Scale(c, Identity(n))
  {
    var s := Scale(c, Identity(n));
    forall i, j | 0 <= i < n && 0 <= j < n
      ensures Transpose(s)[i][j] == s[i][j]
    {
      TransposeAt(s, i, j);
      ScaledIdentityAt(c, n, i, j);
      ScaledIdentityAt(c, n, j, i);
    }
    EqualMatrices(Transpose(s), s);
  }

  /** adj(M) * M = det(M) * I. */
  lemma AdjugateTimes(m: Matrix)
    requires IsSquare(m)
    ensures Product(Adjugate(m), m) == Scale(DetOf(m), Identity(Rows(m)))
  {
    hide DetOf;
    TimesAdjugate(Transpose(m));
    AdjugateOfTranspose(m);
    DetOfTranspose(m);
    TransposeProduct(Adjugate(m), m);
    TransposeTwice(Product(Adjugate(m), m));
    TransposeScaledIdentity(DetOf(m), Rows(m));
  }
}

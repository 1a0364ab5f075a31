/** Matrices as values: the laws of sum, product and transposition. */
module MatrixAlgebra {
  import opened Sums

  /** A rectangular matrix with at least one row and one column. */
  ghost predicate IsMatrix(m: seq<seq<real>>) {
    |m| >= 1 && |m[0]| >= 1 && forall i :: 0 <= i < |m| ==> |m[i]| == |m[0]|
  }

  type Matrix = m: seq<seq<real>> | IsMatrix(m) ghost witness [[0.0]]

  ghost function Rows(m: Matrix): (n: nat)
    ensures n >= 1
  {
    |m|
  }

  ghost function Cols(m: Matrix): (n: nat)
    ensures n >= 1
  {
    |m[0]|
  }

  ghost function Entry(m: Matrix): (int, int) -> real {
    (i, j) => if 0 <= i < |m| && 0 <= j < |m[i]| then m[i][j] else 0.0
  }

  /** The matrix with the given entries. */
  ghost function Build(rows: nat, cols: nat, f: (int, int) -> real): (m: Matrix)
    requires rows >= 1 && cols >= 1
    ensures Rows(m) == rows && Cols(m) == cols
    ensures forall i, j :: 0 <= i < rows && 0 <= j < cols ==> m[i][j] == f(i, j)
  {
    var m := seq(rows, i requires 0 <= i < rows => seq(cols, j requires 0 <= j < cols => f(i, j)));
    assert forall i :: 0 <= i < rows ==> |m[i]| == cols;
    m
  }

  ghost predicate SameSize(a: Matrix, b: Matrix) {
    Rows(a) == Rows(b) && Cols(a) == Cols(b)
  }

  ghost predicate IsSquare(m: Matrix) {
    Rows(m) == Cols(m)
  }

  lemma EqualMatrices(a: Matrix, b: Matrix)
    requires SameSize(a, b)
    requires forall i, j :: 0 <= i < Rows(a) && 0 <= j < Cols(a) ==> a[i][j] == b[i][j]
    ensures a == b
  {
    forall i | 0 <= i < |a|
      ensures a[i] == b[i]
    {
      assert |a[i]| == |b[i]|;
    }
  }

  ghost function Plus(a: Matrix, b: Matrix): Matrix
    requires SameSize(a, b)
  {
    Build(Rows(a), Cols(a), (i, j) => Entry(a)(i, j) + Entry(b)(i, j))
  }

  ghost function Minus(a: Matrix, b: Matrix): Matrix
    requires SameSize(a, b)
  {
    Build(Rows(a), Cols(a), (i, j) => Entry(a)(i, j) - Entry(b)(i, j))
  }

  ghost function Transpose(a: Matrix): Matrix {
    Build(Cols(a), Rows(a), (i, j) => Entry(a)(j, i))
  }

  /** The terms of entry (i, j) of a product. */
  ghost function DotTerm(a: Matrix, b: Matrix, i: int, j: int): int -> real {
    k => Times(Entry(a)(i, k), Entry(b)(k, j))
  }

  ghost function Dot(a: Matrix, b: Matrix, i: int, j: int): real
    requires Cols(a) == Rows(b)
  {
    Sum(Cols(a), DotTerm(a, b, i, j))
  }

  ghost function Product(a: Matrix, b: Matrix): Matrix
    requires Cols(a) == Rows(b)
  {
    Build(Rows(a), Cols(b), (i, j) => Dot(a, b, i, j))
  }

  ghost function Scale(c: real, a: Matrix): Matrix {
    Build(Rows(a), Cols(a), (i, j) => Times(c, Entry(a)(i, j)))
  }

  ghost function Quotient(a: Matrix, c: real): Matrix
    requires c != 0.0
  {
    Build(Rows(a), Cols(a), (i, j) => if c == 0.0 then 0.0 else Entry(a)(i, j) / c)
  }

  ghost function Identity(n: nat): Matrix
    requires n >= 1
  {
    Build(n, n, (i, j) => if i == j then 1.0 else 0.0)
  }

  ghost predicate IsSymmetric(a: Matrix) {
    IsSquare(a) && Transpose(a) == a
  }

  // ---------- entries ----------

  lemma EntryIs(m: Matrix)
    ensures forall i, j :: 0 <= i < Rows(m) && 0 <= j < Cols(m) ==> Entry(m)(i, j) == m[i][j]
  {
  }

  lemma ProductAt(a: Matrix, b: Matrix, i: nat, j: nat)
    requires Cols(a) == Rows(b) && i < Rows(a) && j < Cols(b)
    ensures Product(a, b)[i][j] == Dot(a, b, i, j) == Entry(Product(a, b))(i, j)
  {
  }

  lemma TransposeAt(a: Matrix, i: nat, j: nat)
    requires i < Cols(a) && j < Rows(a)
    ensures Transpose(a)[i][j] == a[j][i] == Entry(Transpose(a))(i, j) == Entry(a)(j, i)
  {
    EntryIs(a);
  }

  // ---------- laws ----------

  lemma TransposeTwice(a: Matrix)
    ensures Transpose(Transpose(a)) == a
  {
    forall i, j | 0 <= i < Rows(a) && 0 <= j < Cols(a)
      ensures Transpose(Transpose(a))[i][j] == a[i][j]
    {
      TransposeAt(Transpose(a), i, j);
      TransposeAt(a, j, i);
    }
    EqualMatrices(Transpose(Transpose(a)), a);
  }

  lemma TransposePlus(a: Matrix, b: Matrix)
    requires SameSize(a, b)
    ensures Transpose(Plus(a, b)) == Plus(Transpose(a), Transpose(b))
  {
    var l, r := Transpose(Plus(a, b)), Plus(Transpose(a), Transpose(b));
    forall i, j | 0 <= i < Cols(a) && 0 <= j < Rows(a)
      ensures l[i][j] == r[i][j]
    {
      TransposeAt(Plus(a, b), i, j);
      TransposeAt(a, i, j);
      TransposeAt(b, i, j);
    }
    EqualMatrices(l, r);
  }

  lemma TransposeMinus(a: Matrix, b: Matrix)
    requires SameSize(a, b)
    ensures Transpose(Minus(a, b)) == Minus(Transpose(a), Transpose(b))
  {
    var l, r := Transpose(Minus(a, b)), Minus(Transpose(a), Transpose(b));
    forall i, j | 0 <= i < Cols(a) && 0 <= j < Rows(a)
      ensures l[i][j] == r[i][j]
    {
      TransposeAt(Minus(a, b), i, j);
      TransposeAt(a, i, j);
      TransposeAt(b, i, j);
    }
    EqualMatrices(l, r);
  }

  lemma TransposeProductAt(a: Matrix, b: Matrix, i: nat, j: nat)
    requires Cols(a) == Rows(b) && i < Cols(b) && j < Rows(a)
    ensures Dot(a, b, j, i) == Dot(Transpose(b), Transpose(a), i, j)
  {
    hide Times;
    var n := Cols(a);
    forall k | 0 <= k < n
      ensures DotTerm(a, b, j, i)(k) == DotTerm(Transpose(b), Transpose(a), i, j)(k)
    {
      TransposeAt(b, i, k);
      TransposeAt(a, k, j);
      TimesCommutes(a[j][k], b[k][i]);
    }
    SumEqual(n, DotTerm(a, b, j, i), DotTerm(Transpose(b), Transpose(a), i, j));
  }

  /** (AB)^T = B^T A^T. */
  lemma TransposeProduct(a: Matrix, b: Matrix)
    requires Cols(a) == Rows(b)
    ensures Transpose(Product(a, b)) == Product(Transpose(b), Transpose(a))
  {
    hide Times, Dot;
    var l, r := Transpose(Product(a, b)), Product(Transpose(b), Transpose(a));
    forall i, j | 0 <= i < Cols(b) && 0 <= j < Rows(a)
      ensures l[i][j] == r[i][j]
    {
      TransposeAt(Product(a, b), i, j);
      ProductAt(a, b, j, i);
      TransposeProductAt(a, b, i, j);
      ProductAt(Transpose(b), Transpose(a), i, j);
    }
    EqualMatrices(l, r);
  }

  /** The term of a triple product that passes through k and l. */
  ghost function TripleTerm(a: Matrix, b: Matrix, c: Matrix, i: int, j: int): (int, int) -> real {
    (k, l) => Times(Entry(a)(i, k), Times(Entry(b)(k, l), Entry(c)(l, j)))
  }

  lemma LeftTripleTerm(a: Matrix, b: Matrix, c: Matrix, i: nat, j: nat, l: nat)
    requires Cols(a) == Rows(b) && Cols(b) == Rows(c) && i < Rows(a) && j < Cols(c) && l < Cols(b)
    ensures DotTerm(Product(a, b), c, i, j)(l) == ColumnSum(TripleTerm(a, b, c, i, j), Cols(a))(l)
  {
    hide Times;
    var n := Cols(a);
    ProductAt(a, b, i, l);
    var x := Entry(c)(l, j);
    var f := DotTerm(a, b, i, l);
    var g := k => TripleTerm(a, b, c, i, j)(k, l);
    forall k | 0 <= k < n
      ensures g(k) == Times(x, f(k))
    {
      TimesRegroup(Entry(a)(i, k), Entry(b)(k, l), x);
      assert TripleTerm(a, b, c, i, j)(k, l) == Times(Entry(a)(i, k), Times(Entry(b)(k, l), x));
      assert f(k) == Times(Entry(a)(i, k), Entry(b)(k, l));
    }
    SumScaled(n, true, x, f, g);
    TimesCommutes(x, Dot(a, b, i, l));
  }

  lemma RightTripleTerm(a: Matrix, b: Matrix, c: Matrix, i: nat, j: nat, k: nat)
    requires Cols(a) == Rows(b) && Cols(b) == Rows(c) && i < Rows(a) && j < Cols(c) && k < Cols(a)
    ensures DotTerm(a, Product(b, c), i, j)(k) == RowSum(TripleTerm(a, b, c, i, j), Cols(b))(k)
  {
    hide Times;
    var m := Cols(b);
    ProductAt(b, c, k, j);
    var x := Entry(a)(i, k);
    var f := DotTerm(b, c, k, j);
    var g := l => TripleTerm(a, b, c, i, j)(k, l);
    forall l | 0 <= l < m
      ensures g(l) == Times(x, f(l))
    {
      assert TripleTerm(a, b, c, i, j)(k, l) == Times(x, Times(Entry(b)(k, l), Entry(c)(l, j)));
      assert f(l) == Times(Entry(b)(k, l), Entry(c)(l, j));
    }
    SumScaled(m, true, x, f, g);
  }

  lemma TripleDots(a: Matrix, b: Matrix, c: Matrix, i: nat, j: nat)
    requires Cols(a) == Rows(b) && Cols(b) == Rows(c) && i < Rows(a) && j < Cols(c)
    ensures Dot(Product(a, b), c, i, j) == Dot(a, Product(b, c), i, j)
  {
    hide Times;
    var n, m := Cols(a), Cols(b);
    var f := TripleTerm(a, b, c, i, j);
    forall l | 0 <= l < m
      ensures DotTerm(Product(a, b), c, i, j)(l) == ColumnSum(f, n)(l)
    {
      LeftTripleTerm(a, b, c, i, j, l);
    }
    forall k | 0 <= k < n
      ensures DotTerm(a, Product(b, c), i, j)(k) == RowSum(f, m)(k)
    {
      RightTripleTerm(a, b, c, i, j, k);
    }
    SumEqual(m, DotTerm(Product(a, b), c, i, j), ColumnSum(f, n));
    SumEqual(n, DotTerm(a, Product(b, c), i, j), RowSum(f, m));
    SumSwap(n, m, f);
  }

  /** (AB)C = A(BC). */
  lemma ProductAssociative(a: Matrix, b: Matrix, c: Matrix)
    requires Cols(a) == Rows(b) && Cols(b) == Rows(c)
    ensures Product(Product(a, b), c) == Product(a, Product(b, c))
  {
    hide Times, Dot;
    var l, r := Product(Product(a, b), c), Product(a, Product(b, c));
    forall i, j | 0 <= i < Rows(a) && 0 <= j < Cols(c)
      ensures l[i][j] == r[i][j]
    {
      ProductAt(Product(a, b), c, i, j);
      ProductAt(a, Product(b, c), i, j);
      TripleDots(a, b, c, i, j);
    }
    EqualMatrices(l, r);
  }

  lemma IdentityDot(a: Matrix, i: nat, j: nat)
    requires i < Rows(a) && j < Cols(a)
    ensures Dot(Identity(Rows(a)), a, i, j) == a[i][j]
  {
    var n := Rows(a);
    var f := DotTerm(Identity(n), a, i, j);
    forall k | 0 <= k < n && k != i
      ensures f(k) == 0.0
    {
      assert Entry(Identity(n))(i, k) == 0.0;
      assert f(k) == Times(0.0, Entry(a)(k, j));
    }
    SumSingle(n, i, f);
    assert Entry(Identity(n))(i, i) == 1.0;
    assert f(i) == Times(1.0, a[i][j]);
  }

  lemma IdentityProduct(a: Matrix)
    ensures Product(Identity(Rows(a)), a) == a
  {
    hide Times, Dot;
    forall i, j | 0 <= i < Rows(a) && 0 <= j < Cols(a)
      ensures Product(Identity(Rows(a)), a)[i][j] == a[i][j]
    {
      ProductAt(Identity(Rows(a)), a, i, j);
      IdentityDot(a, i, j);
    }
    EqualMatrices(Product(Identity(Rows(a)), a), a);
  }

  lemma IdentityIsSymmetric(n: nat)
    requires n >= 1
    ensures IsSymmetric(Identity(n))
  {
    EntryIs(Identity(n));
    EqualMatrices(Transpose(Identity(n)), Identity(n));
  }

  lemma ProductIdentity(a: Matrix)
    ensures Product(a, Identity(Cols(a))) == a
  {
    IdentityProduct(Transpose(a));
    IdentityIsSymmetric(Cols(a));
    TransposeProduct(a, Identity(Cols(a)));
    TransposeTwice(Product(a, Identity(Cols(a))));
    TransposeTwice(a);
  }
}

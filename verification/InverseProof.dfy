/** For exactly which matrices `inverse` returns a two-sided inverse, and that it throws only when there is none. */
module InverseProof {
  import opened Wrappers
  import opened Sums
  import opened Determinant
  import opened MatrixAlgebra
  import opened Inverse

  // ---------- the general branch ----------

  lemma DivideIsTimes(x: real, c: real)
    requires c != 0.0
    ensures x / c == Times(1.0 / c, x)
  {
  }

  lemma QuotientAt(a: Matrix, c: real, i: nat, j: nat)
    requires c != 0.0 && i < Rows(a) && j < Cols(a)
    ensures Quotient(a, c)[i][j] == Entry(Quotient(a, c))(i, j) == Times(1.0 / c, Entry(a)(i, j))
  {
    hide Times;
    EntryIs(a);
    EntryIs(Quotient(a, c));
    DivideIsTimes(a[i][j], c);
  }

  lemma TimesQuotientDot(m: Matrix, a: Matrix, c: real, i: nat, j: nat)
    requires Cols(m) == Rows(a) && c != 0.0 && i < Rows(m) && j < Cols(a)
    ensures Dot(m, Quotient(a, c), i, j) == Times(1.0 / c, Dot(m, a, i, j))
  {
    hide Times, Quotient;
    var f, g := DotTerm(m, a, i, j), DotTerm(m, Quotient(a, c), i, j);
    forall k | 0 <= k < Cols(m)
      ensures g(k) == Times(1.0 / c, f(k))
    {
      QuotientAt(a, c, k, j);
      TimesExchange(Entry(m)(i, k), 1.0 / c, Entry(a)(k, j));
    }
    SumScaled(Cols(m), true, 1.0 / c, f, g);
  }

  lemma QuotientTimesDot(a: Matrix, m: Matrix, c: real, i: nat, j: nat)
    requires Cols(a) == Rows(m) && c != 0.0 && i < Rows(a) && j < Cols(m)
    ensures Dot(Quotient(a, c), m, i, j) == Times(1.0 / c, Dot(a, m, i, j))
  {
    hide Times, Quotient;
    QuotientSize(a, c);
    var f, g := DotTerm(a, m, i, j), DotTerm(Quotient(a, c), m, i, j);
    forall k | 0 <= k < Cols(a)
      ensures g(k) == Times(1.0 / c, f(k))
    {
      QuotientAt(a, c, i, k);
      TimesRegroup(1.0 / c, Entry(a)(i, k), Entry(m)(k, j));
      TimesCommutes(Times(1.0 / c, Entry(a)(i, k)), Entry(m)(k, j));
      TimesExchange(1.0 / c, Entry(m)(k, j), Entry(a)(i, k));
      TimesCommutes(Entry(m)(k, j), Entry(a)(i, k));
    }
    SumScaled(Cols(a), true, 1.0 / c, f, g);
  }

  lemma UnscaledIdentityAt(c: real, p: Matrix, n: nat, i: nat, j: nat)
    requires c != 0.0 && n >= 1 && p == Scale(c, Identity(n)) && i < n && j < n
    ensures Times(1.0 / c, p[i][j]) == Identity(n)[i][j]
  {
    ScaledIdentityAt(c, n, i, j);
    assert 1.0 / c * c == 1.0;
  }

  /** The adjugate over a determinant other than zero is a two-sided inverse. */
  lemma AdjugateOverDetInverts(m: Matrix)
    requires IsSquare(m) && DetOf(m) != 0.0
    ensures IsInverse(m, Quotient(Adjugate(m), DetOf(m)))
  {
    hide Times, DetOf, Dot, Quotient;
    var n, d, a := Rows(m), DetOf(m), Adjugate(m);
    QuotientSize(a, d);
    TimesAdjugate(m);
    AdjugateTimes(m);
    forall i, j | 0 <= i < n && 0 <= j < n
      ensures Product(m, Quotient(a, d))[i][j] == Identity(n)[i][j]
      ensures Product(Quotient(a, d), m)[i][j] == Identity(n)[i][j]
    {
      ProductAt(m, Quotient(a, d), i, j);
      ProductAt(m, a, i, j);
      TimesQuotientDot(m, a, d, i, j);
      UnscaledIdentityAt(d, Product(m, a), n, i, j);
      ProductAt(Quotient(a, d), m, i, j);
      ProductAt(a, m, i, j);
      QuotientTimesDot(a, m, d, i, j);
      UnscaledIdentityAt(d, Product(a, m), n, i, j);
    }
    EqualMatrices(Product(m, Quotient(a, d)), Identity(n));
    EqualMatrices(Product(Quotient(a, d), m), Identity(n));
  }

  lemma QuotientSize(a: Matrix, c: real)
    requires c != 0.0
    ensures SameSize(Quotient(a, c), a)
  {
  }

  // ---------- the branch for determinant one ----------

  lemma UnitCornerAt(m: Matrix, i: nat, j: nat)
    requires i < Rows(m) && j < Cols(m)
    ensures SameSize(WithUnitCorner(m), m)
    ensures Entry(WithUnitCorner(m))(i, j) == if i == 0 && j == 0 then 1.0 else Entry(m)(i, j)
  {
  }

  /** Overwriting the corner changes only the first column of M * W ... */
  lemma TimesUnitCorner(m: Matrix, i: nat, j: nat)
    requires IsSquare(m) && i < Rows(m) && j < Rows(m)
    ensures SameSize(WithUnitCorner(m), m)
    ensures Dot(m, WithUnitCorner(m), i, j) == Dot(m, m, i, j) + if j == 0 then Times(m[i][0], 1.0 - m[0][0]) else 0.0
  {
    hide Times;
    var n, w := Rows(m), WithUnitCorner(m);
    UnitCornerAt(m, 0, 0);
    var f, g := DotTerm(m, m, i, j), DotTerm(m, w, i, j);
    var h := k => if k == 0 && j == 0 then Times(m[i][0], 1.0 - m[0][0]) else 0.0;
    forall k | 0 <= k < n
      ensures g(k) == f(k) + h(k)
    {
      UnitCornerAt(m, k, j);
      EntryIs(m);
      TimesAdd(m[i][k], m[k][j], 1.0 - m[0][0]);
    }
    SumEqual(n, g, k => f(k) + h(k));
    SumAdd(n, f, h);
    SumSingle(n, 0, h);
  }

  /** ... and only the first row of W * M. */
  lemma UnitCornerTimes(m: Matrix, i: nat, j: nat)
    requires IsSquare(m) && i < Rows(m) && j < Rows(m)
    ensures SameSize(WithUnitCorner(m), m)
    ensures Dot(WithUnitCorner(m), m, i, j) == Dot(m, m, i, j) + if i == 0 then Times(m[0][j], 1.0 - m[0][0]) else 0.0
  {
    hide Times;
    var n, w := Rows(m), WithUnitCorner(m);
    UnitCornerAt(m, 0, 0);
    var f, g := DotTerm(m, m, i, j), DotTerm(w, m, i, j);
    var h := k => if k == 0 && i == 0 then Times(m[0][j], 1.0 - m[0][0]) else 0.0;
    forall k | 0 <= k < n
      ensures g(k) == f(k) + h(k)
    {
      UnitCornerAt(m, i, k);
      EntryIs(m);
      TimesAdd(m[k][j], m[i][k], 1.0 - m[0][0]);
      TimesCommutes(m[i][k], m[k][j]);
      TimesCommutes(1.0, m[k][j]);
    }
    SumEqual(n, g, k => f(k) + h(k));
    SumAdd(n, f, h);
    SumSingle(n, 0, h);
  }

  lemma TimesIsZero(x: real, c: real)
    requires Times(x, c) == 0.0 && c != 0.0
    ensures x == 0.0
  {
  }

  /** If W inverts M, the corner of M was one already. */
  lemma UnitCornerForced(m: Matrix)
    requires IsSquare(m) && SameSize(WithUnitCorner(m), m) && IsInverse(m, WithUnitCorner(m))
    ensures m[0][0] == 1.0
  {
    hide Times, Dot;
    var n, w, c := Rows(m), WithUnitCorner(m), 1.0 - m[0][0];
    if c != 0.0 {
      forall k | 1 <= k < n
        ensures m[0][k] == 0.0
      {
        ProductAt(m, w, 0, k);
        ProductAt(w, m, 0, k);
        TimesUnitCorner(m, 0, k);
        UnitCornerTimes(m, 0, k);
        TimesIsZero(m[0][k], c);
      }
      CornerProduct(m);
      ProductAt(m, w, 0, 0);
      assert Identity(n)[0][0] == 1.0;
    }
  }

  lemma CornerProduct(m: Matrix)
    requires IsSquare(m) && SameSize(WithUnitCorner(m), m)
    requires forall k :: 1 <= k < Rows(m) ==> m[0][k] == 0.0
    ensures Dot(m, WithUnitCorner(m), 0, 0) == m[0][0]
  {
    var f := DotTerm(m, WithUnitCorner(m), 0, 0);
    EntryIs(m);
    forall k | 0 <= k < Rows(m) && k != 0
      ensures f(k) == 0.0
    {
      assert f(k) == Times(m[0][k], Entry(WithUnitCorner(m))(k, 0));
    }
    SumSingle(Rows(m), 0, f);
    UnitCornerAt(m, 0, 0);
    assert f(0) == Times(m[0][0], 1.0);
  }

  /** The determinant-one branch returns an inverse exactly for the self-inverse matrices whose corner is one. */
  lemma UnitBranchCorrectIff(m: Matrix)
    requires IsSquare(m)
    ensures IsInverse(m, WithUnitCorner(m)) <==> m[0][0] == 1.0 && Product(m, m) == Identity(Rows(m))
  {
    hide Dot, Product;
    UnitCornerAt(m, 0, 0);
    if m[0][0] == 1.0 {
      assert WithUnitCorner(m) == m by { EqualMatrices(WithUnitCorner(m), m); }
    } else if IsInverse(m, WithUnitCorner(m)) {
      UnitCornerForced(m);
    }
  }

  // ---------- one by one ----------

  lemma OneByOneWrong(m: Matrix, d: real)
    requires Rows(m) == Cols(m) == 1 && d != 0.0
    ensures !IsInverse(m, Quotient([[0.0]], d))
  {
    var z: Matrix := [[0.0]];
    QuotientAt(z, d, 0, 0);
    var x := Quotient(z, d);
    ProductAt(m, x, 0, 0);
    var f := DotTerm(m, x, 0, 0);
    assert f(0) == Times(Entry(m)(0, 0), Entry(x)(0, 0));
    assert Dot(m, x, 0, 0) == Sum(1, f) == f(0);
    assert Identity(1)[0][0] == 1.0;
  }

  /** `inverse` returns a two-sided inverse exactly when: the determinant is neither 0 nor 1 and the matrix is larger than 1 x 1, or it is 1 and the matrix is its own inverse with corner 1. */
  lemma InverseCorrectIff(m: Matrix)
    requires IsSquare(m) && InverseOf(m).Ok?
    ensures IsInverse(m, InverseOf(m).value) <==>
            if DetOf(m) == 1.0 then m[0][0] == 1.0 && Product(m, m) == Identity(Rows(m)) else Rows(m) >= 2
  {
    hide DetOf, Product, Quotient;
    if DetOf(m) == 1.0 {
      UnitBranchCorrectIff(m);
    } else if Rows(m) == 1 {
      OneByOneWrong(m, DetOf(m));
    } else {
      AdjugateOverDetInverts(m);
    }
  }

  /** The branch for determinant 1 is not taken rightly in general: here it returns something that is no inverse. */
  lemma UnitDeterminantExample()
    ensures var m: Matrix := [[2.0, 1.0], [1.0, 1.0]];
      IsSquare(m) && DetOf(m) == 1.0 && InverseOf(m).Ok? && !IsInverse(m, InverseOf(m).value)
  {
    var m: Matrix := [[2.0, 1.0], [1.0, 1.0]];
    assert Range(2) == [0, 1];
    TwoByTwoDet(Entry(m));
    EntryIs(m);
    assert DetOf(m) == 1.0 by { hide Det; }
    hide DetOf, Product;
    InverseCorrectIff(m);
  }

  // ---------- symmetry ----------

  lemma SymmetricAt(m: Matrix, i: nat, j: nat)
    requires IsSymmetric(m) && i < Rows(m) && j < Rows(m)
    ensures m[i][j] == m[j][i]
  {
    TransposeAt(m, i, j);
  }

  lemma MakeSymmetric(m: Matrix)
    requires IsSquare(m)
    requires forall i, j :: 0 <= i < Rows(m) && 0 <= j < Rows(m) ==> m[i][j] == m[j][i]
    ensures IsSymmetric(m)
  {
    forall i, j | 0 <= i < Rows(m) && 0 <= j < Rows(m)
      ensures Transpose(m)[i][j] == m[i][j]
    {
      TransposeAt(m, i, j);
    }
    EqualMatrices(Transpose(m), m);
  }

  /** Whatever branch is taken, the result for a symmetric matrix is symmetric. */
  lemma InverseOfSymmetric(m: Matrix)
    requires IsSymmetric(m) && InverseOf(m).Ok?
    ensures IsSquare(InverseOf(m).value) && Rows(InverseOf(m).value) == Rows(m) && IsSymmetric(InverseOf(m).value)
  {
    hide DetOf, Transpose;
    var d := DetOf(m);
    if d == 1.0 {
      var w := WithUnitCorner(m);
      UnitCornerAt(m, 0, 0);
      forall i, j | 0 <= i < Rows(m) && 0 <= j < Rows(m)
        ensures w[i][j] == w[j][i]
      {
        SymmetricAt(m, i, j);
      }
      MakeSymmetric(w);
    } else {
      var a := CofactorResult(m);
      AdjugateOfTranspose(m);
      forall i, j | 0 <= i < Rows(m) && 0 <= j < Rows(m)
        ensures Quotient(a, d)[i][j] == Quotient(a, d)[j][i]
      {
        if Rows(m) > 1 { SymmetricAt(a, i, j); }
        QuotientAt(a, d, i, j);
        QuotientAt(a, d, j, i);
        EntryIs(a);
      }
      MakeSymmetric(Quotient(a, d));
    }
  }
}

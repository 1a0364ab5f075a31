/** What the matrix filter's gain is worth, given what `inverse` really returns. */
module KalmanGain {
  import opened Wrappers
  import opened Sums
  import opened Determinant
  import opened MatrixAlgebra
  import opened Inverse
  import opened InverseProof
  import opened MatrixKalman

  /** The matrices `inverse` inverts: more than one row, or determinant 1, corner 1 and their own inverse. */
  ghost predicate InvertsRightly(s: Matrix)
    requires IsSquare(s)
  {
    if DetOf(s) == 1.0 then s[0][0] == 1.0 && Product(s, s) == Identity(Rows(s)) else Rows(s) >= 2
  }

  lemma GainParts(f: FilterValue, pp: Matrix)
    requires GainOf(f, pp).Ok?
    ensures Innovation(f, pp).Ok? && IsSquare(Innovation(f, pp).value) && InverseOf(Innovation(f, pp).value).Ok?
    ensures Cols(pp) == Cols(f.h) && Cols(f.h) == Rows(pp) && Rows(Innovation(f, pp).value) == Rows(f.h)
    ensures var g := Product(pp, Transpose(f.h));
      var si := InverseOf(Innovation(f, pp).value).value;
      Rows(g) == Rows(pp) && Cols(g) == Rows(f.h) == Rows(si) == Cols(si) && GainOf(f, pp).value == Product(g, si)
  {
    hide Product, Plus, IsMatrix, InverseOf;
    InnovationSize(f, pp);
    ProductSize(pp, Transpose(f.h));
    TransposeSize(f.h);
    InverseSize(Innovation(f, pp).value);
  }

  lemma InverseSize(s: Matrix)
    requires IsSquare(s) && InverseOf(s).Ok?
    ensures SameSize(InverseOf(s).value, s)
  {
    hide DetOf, Quotient;
    if DetOf(s) != 1.0 { QuotientSize(CofactorResult(s), DetOf(s)); } else { UnitCornerAt(s, 0, 0); }
  }

  // ---------- where `inverse` inverts ----------

  /** The gain solves K S = Pp H^T whenever `inverse` inverts S. */
  lemma GainSolves(f: FilterValue, pp: Matrix)
    requires GainOf(f, pp).Ok? && Innovation(f, pp).Ok? && IsSquare(Innovation(f, pp).value)
    requires InvertsRightly(Innovation(f, pp).value)
    ensures var s := Innovation(f, pp).value;
      && Cols(pp) == Cols(f.h) && Cols(GainOf(f, pp).value) == Rows(s)
      && Product(GainOf(f, pp).value, s) == Product(pp, Transpose(f.h))
  {
    hide Product, Transpose, Plus, DetOf, Quotient, InverseOf, Innovation, GainOf;
    GainParts(f, pp);
    TransposeSize(f.h);
    SolvesFor(Product(pp, Transpose(f.h)), Innovation(f, pp).value);
  }

  /** Multiplying by what `inverse` returns for s solves x s = g. */
  lemma SolvesFor(g: Matrix, s: Matrix)
    requires IsSquare(s) && InverseOf(s).Ok? && InvertsRightly(s) && Cols(g) == Rows(s)
    ensures SameSize(InverseOf(s).value, s) && Cols(Product(g, InverseOf(s).value)) == Rows(s)
    ensures Product(Product(g, InverseOf(s).value), s) == g
  {
    hide Product, DetOf, InverseOf;
    InverseCorrectIff(s);
    ProductSize(g, InverseOf(s).value);
    ProductAssociative(g, InverseOf(s).value, s);
    ProductIdentity(g);
  }

  ghost predicate AlwaysSolves(s: Matrix, si: Matrix)
    requires IsSquare(s) && SameSize(si, s)
  {
    forall g: Matrix :: Cols(g) == Rows(s) ==> Product(Product(g, si), s) == g
  }

  /** The gain computed from S solves its equation for every right-hand side exactly when `inverse` inverts S. */
  lemma GainSolvesIff(s: Matrix)
    requires IsSquare(s) && InverseOf(s).Ok?
    ensures SameSize(InverseOf(s).value, s)
    ensures AlwaysSolves(s, InverseOf(s).value) <==> InvertsRightly(s)
  {
    hide DetOf, InverseOf, Dot;
    InverseSize(s);
    var si := InverseOf(s).value;
    if InvertsRightly(s) {
      forall g: Matrix | Cols(g) == Rows(s)
        ensures Product(Product(g, si), s) == g
      {
        SolvesFor(g, s);
      }
    } else if AlwaysSolves(s, si) {
      var e := Identity(Rows(s));
      assert Product(Product(e, si), s) == e;
      IdentityProduct(si);
      LeftInverseIsInverse(s, si);
      InverseCorrectIff(s);
    }
  }

  lemma DetOfInvertible(s: Matrix)
    requires IsSquare(s) && InverseOf(s).Ok?
    ensures DetOf(s) != 0.0
  {
    hide DetOf;
  }

  lemma LeftInverseIsInverse(s: Matrix, x: Matrix)
    requires IsSquare(s) && InverseOf(s).Ok? && SameSize(x, s) && Product(x, s) == Identity(Rows(s))
    ensures IsInverse(s, x)
  {
    hide Product, DetOf, InverseOf, Quotient, Adjugate;
    DetOfInvertible(s);
    AdjugateOverDetInverts(s);
    var y := Quotient(Adjugate(s), DetOf(s));
    ProductAssociative(x, s, y);
    IdentityProduct(y);
    ProductIdentity(x);
  }

  // ---------- one measured quantity ----------

  ghost predicate IsZero(m: Matrix) {
    forall i, j :: 0 <= i < Rows(m) && 0 <= j < Cols(m) ==> m[i][j] == 0.0
  }

  lemma TimesZeroMatrix(a: Matrix, b: Matrix)
    requires Cols(a) == Rows(b) && (IsZero(a) || IsZero(b))
    ensures IsZero(Product(a, b))
  {
    hide Times, Sum;
    EntryIs(a);
    EntryIs(b);
    forall i, j | 0 <= i < Rows(a) && 0 <= j < Cols(b)
      ensures Product(a, b)[i][j] == 0.0
    {
      ProductAt(a, b, i, j);
      forall k | 0 <= k < Cols(a)
        ensures DotTerm(a, b, i, j)(k) == 0.0
      {
        assert Entry(a)(i, k) == a[i][k] && Entry(b)(k, j) == b[k][j];
        TimesZero(Entry(a)(i, k));
        TimesZero(Entry(b)(k, j));
        TimesCommutes(Entry(a)(i, k), Entry(b)(k, j));
      }
      SumZero(Cols(a), DotTerm(a, b, i, j));
    }
  }

  lemma PlusZeroMatrix(a: Matrix, z: Matrix)
    requires SameSize(a, z) && IsZero(z)
    ensures Plus(a, z) == a && Minus(a, z) == a
  {
    EntryIs(a);
    EntryIs(z);
    EqualMatrices(Plus(a, z), a);
    EqualMatrices(Minus(a, z), a);
  }

  /** A 1 x 1 matrix of determinant other than 1 is "inverted" to 0. */
  lemma OneByOneInverseIsZero(s: Matrix)
    requires Rows(s) == Cols(s) == 1 && InverseOf(s).Ok? && DetOf(s) != 1.0
    ensures IsZero(InverseOf(s).value)
  {
    hide DetOf;
    var zero: Matrix := [[0.0]];
    EntryIs(zero);
    EntryIs(Quotient(zero, DetOf(s)));
    assert 0.0 / DetOf(s) == 0.0;
  }

  /** Of the 1 x 1 matrices `inverse` inverts [1] only. */
  lemma OneByOneInvertedIff(s: Matrix)
    requires Rows(s) == Cols(s) == 1
    ensures InvertsRightly(s) <==> s == [[1.0]]
    ensures DetOf(s) == s[0][0]
  {
    assert Range(1) == [0];
    OneByOneDet(Entry(s), 0, 0);
    EntryIs(s);
    if s[0][0] == 1.0 {
      var unit: Matrix := [[1.0]];
      EqualMatrices(s, unit);
      EqualMatrices(unit, Identity(1));
      IdentityProduct(unit);
    }
  }

  /** With one measured quantity and an innovation covariance other than 1 the gain is zero. */
  lemma OneMeasurementNoGain(f: FilterValue, pp: Matrix)
    requires GainOf(f, pp).Ok? && Rows(f.h) == 1
    requires Innovation(f, pp).Ok? && IsSquare(Innovation(f, pp).value) && DetOf(Innovation(f, pp).value) != 1.0
    ensures IsZero(GainOf(f, pp).value)
  {
    hide DetOf, Product, Transpose, InverseOf, Innovation, GainOf, IsZero;
    GainParts(f, pp);
    OneByOneInverseIsZero(Innovation(f, pp).value);
    TransposeSize(f.h);
    TimesZeroMatrix(Product(pp, Transpose(f.h)), InverseOf(Innovation(f, pp).value).value);
  }

  lemma NoGainNoCorrection(f: FilterValue, k: Matrix, xp: Matrix, pp: Matrix, z: Matrix)
    requires IsZero(k)
    ensures Estimate(f, k, xp, z).Ok? ==> Estimate(f, k, xp, z).value == xp
    ensures Updated(f, k, pp).Ok? ==> Updated(f, k, pp).value == pp
  {
    hide Product, Plus, Minus, IsZero;
    if Estimate(f, k, xp, z).Ok? {
      var d := Minus(z, Product(f.h, xp));
      TimesZeroMatrix(k, d);
      PlusZeroMatrix(xp, Product(k, d));
    }
    if Updated(f, k, pp).Ok? {
      TimesZeroMatrix(k, f.h);
      TimesZeroMatrix(Product(k, f.h), pp);
      PlusZeroMatrix(pp, Product(Product(k, f.h), pp));
    }
  }

  /**
   With one measured quantity and an innovation covariance other than 1 a call ignores the measurement: the new
   estimate is A x and the new covariance A P A^T + Q, whatever z is.
   */
  lemma OneMeasurementIsIgnored(f: FilterValue, a: Matrix, z: Matrix)
    requires !f.first && RunOnce(f, a, z).1.Ok? && Rows(f.h) == 1
    requires Predicted(f, a).Ok? && Innovation(f, Predicted(f, a).value).Ok?
    requires IsSquare(Innovation(f, Predicted(f, a).value).value) && DetOf(Innovation(f, Predicted(f, a).value).value) != 1.0
    ensures Cols(a) == Rows(f.x)
    ensures RunOnce(f, a, z) == (f.(x := Product(a, f.x), p := Predicted(f, a).value), Ok(Product(a, f.x)))
  {
    hide DetOf, Product, Transpose, Plus, Minus, InverseOf, Innovation, GainOf, IsZero, Estimate, Updated, Predicted;
    var pp := Predicted(f, a).value;
    OneMeasurementNoGain(f, pp);
    NoGainNoCorrection(f, GainOf(f, pp).value, Product(a, f.x), pp, z);
  }
}

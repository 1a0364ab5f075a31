/** Positive semidefiniteness of the matrix filter's covariance over every run. */
module KalmanPsd {
  import opened Wrappers
  import opened Sums
  import opened Determinant
  import opened MatrixAlgebra
  import opened Inverse
  import opened MatrixKalman
  import opened KalmanGain

  // ---------- products distribute ----------

  lemma DotPlusRight(a: Matrix, b: Matrix, c: Matrix, i: nat, j: nat)
    requires SameSize(b, c) && Cols(a) == Rows(b) && i < Rows(a) && j < Cols(b)
    ensures SameSize(Plus(b, c), b) && Dot(a, Plus(b, c), i, j) == Dot(a, b, i, j) + Dot(a, c, i, j)
  {
    hide Times;
    var f, g := DotTerm(a, b, i, j), DotTerm(a, c, i, j);
    EntryIs(b);
    EntryIs(c);
    EntryIs(Plus(b, c));
    forall k | 0 <= k < Cols(a)
      ensures DotTerm(a, Plus(b, c), i, j)(k) == f(k) + g(k)
    {
      TimesAdd(Entry(a)(i, k), Entry(b)(k, j), Entry(c)(k, j));
    }
    SumAdd(Cols(a), f, g);
    SumEqual(Cols(a), DotTerm(a, Plus(b, c), i, j), k => f(k) + g(k));
  }

  lemma ProductPlus(a: Matrix, b: Matrix, c: Matrix)
    requires SameSize(b, c) && Cols(a) == Rows(b)
    ensures SameSize(Plus(b, c), b) && SameSize(Product(a, b), Product(a, c))
    ensures Product(a, Plus(b, c)) == Plus(Product(a, b), Product(a, c))
  {
    hide Dot;
    var l, r := Product(a, Plus(b, c)), Plus(Product(a, b), Product(a, c));
    forall i, j | 0 <= i < Rows(a) && 0 <= j < Cols(b)
      ensures l[i][j] == r[i][j]
    {
      ProductAt(a, Plus(b, c), i, j);
      ProductAt(a, b, i, j);
      ProductAt(a, c, i, j);
      DotPlusRight(a, b, c, i, j);
    }
    EqualMatrices(l, r);
  }

  lemma PlusSize(a: Matrix, b: Matrix)
    requires SameSize(a, b)
    ensures SameSize(Plus(a, b), a) && SameSize(Minus(a, b), a)
  {
  }

  lemma PlusProduct(a: Matrix, b: Matrix, c: Matrix)
    requires SameSize(a, b) && Cols(a) == Rows(c)
    ensures SameSize(Plus(a, b), a) && SameSize(Product(a, c), Product(b, c))
    ensures Product(Plus(a, b), c) == Plus(Product(a, c), Product(b, c))
  {
    hide Product, Plus, Transpose;
    PlusSize(a, b);
    ProductSize(a, c);
    ProductSize(b, c);
    TransposeSize(a);
    TransposeSize(b);
    TransposeSize(c);
    TransposeProduct(Plus(a, b), c);
    TransposePlus(a, b);
    ProductPlus(Transpose(c), Transpose(a), Transpose(b));
    TransposeProduct(a, c);
    TransposeProduct(b, c);
    TransposePlus(Product(a, c), Product(b, c));
    ProductSize(Plus(a, b), c);
    PlusSize(Product(a, c), Product(b, c));
    TransposeTwice(Product(Plus(a, b), c));
    TransposeTwice(Plus(Product(a, c), Product(b, c)));
  }

  lemma MinusPlus(a: Matrix, b: Matrix)
    requires SameSize(a, b)
    ensures SameSize(Minus(a, b), b) && Plus(Minus(a, b), b) == a
  {
    EntryIs(a);
    EntryIs(b);
    EntryIs(Minus(a, b));
    EqualMatrices(Plus(Minus(a, b), b), a);
  }

  // ---------- the form v^T M w ----------

  ghost predicate IsColumn(v: Matrix, n: nat) {
    Cols(v) == 1 && Rows(v) == n
  }

  /** v^T M w as a 1 x 1 matrix. */
  ghost function FormMatrix(m: Matrix, v: Matrix, w: Matrix): (r: Matrix)
    requires IsColumn(v, Rows(m)) && IsColumn(w, Cols(m))
    ensures Rows(r) == Cols(r) == 1
  {
    TransposeSize(v);
    ProductSize(Transpose(v), m);
    ProductSize(Product(Transpose(v), m), w);
    Product(Product(Transpose(v), m), w)
  }

  ghost function Form(m: Matrix, v: Matrix, w: Matrix): real
    requires IsColumn(v, Rows(m)) && IsColumn(w, Cols(m))
  {
    FormMatrix(m, v, w)[0][0]
  }

  ghost predicate IsPsd(m: Matrix) {
    IsSquare(m) && forall v: Matrix :: IsColumn(v, Rows(m)) ==> Form(m, v, v) >= 0.0
  }

  /** v^T (A B) w = (A^T v)^T B w. */
  lemma FormLeft(a: Matrix, b: Matrix, v: Matrix, w: Matrix)
    requires Cols(a) == Rows(b) && IsColumn(v, Rows(a)) && IsColumn(w, Cols(b))
    ensures Rows(Product(a, b)) == Rows(a) && Cols(Product(a, b)) == Cols(b)
    ensures Cols(Transpose(a)) == Rows(v) && IsColumn(Product(Transpose(a), v), Rows(b))
    ensures Form(Product(a, b), v, w) == Form(b, Product(Transpose(a), v), w)
  {
    hide Product, Transpose;
    ProductSize(a, b);
    TransposeSize(a);
    TransposeSize(v);
    ProductSize(Transpose(a), v);
    ProductSize(Transpose(v), a);
    TransposeProduct(Transpose(a), v);
    TransposeTwice(a);
    ProductAssociative(Transpose(v), a, b);
  }

  /** v^T (A B) w = v^T A (B w). */
  lemma FormRight(a: Matrix, b: Matrix, v: Matrix, w: Matrix)
    requires Cols(a) == Rows(b) && IsColumn(v, Rows(a)) && IsColumn(w, Cols(b))
    ensures Rows(Product(a, b)) == Rows(a) && Cols(Product(a, b)) == Cols(b)
    ensures IsColumn(Product(b, w), Cols(a))
    ensures Form(Product(a, b), v, w) == Form(a, v, Product(b, w))
  {
    hide Product, Transpose;
    ProductSize(a, b);
    TransposeSize(v);
    ProductSize(b, w);
    ProductSize(Transpose(v), a);
    ProductAssociative(Transpose(v), a, b);
    ProductAssociative(Product(Transpose(v), a), b, w);
  }

  lemma OnlyEntryAdds(a: Matrix, b: Matrix)
    requires Rows(a) == Cols(a) == 1 && SameSize(a, b)
    ensures Plus(a, b)[0][0] == a[0][0] + b[0][0]
  {
    EntryIs(a);
    EntryIs(b);
  }

  lemma FormPlus(a: Matrix, b: Matrix, v: Matrix, w: Matrix)
    requires SameSize(a, b) && IsColumn(v, Rows(a)) && IsColumn(w, Cols(a))
    ensures SameSize(Plus(a, b), a)
    ensures Form(Plus(a, b), v, w) == Form(a, v, w) + Form(b, v, w)
  {
    hide Product, Transpose, Plus;
    PlusSize(a, b);
    TransposeSize(v);
    ProductPlus(Transpose(v), a, b);
    ProductSize(Transpose(v), a);
    ProductSize(Transpose(v), b);
    PlusProduct(Product(Transpose(v), a), Product(Transpose(v), b), w);
    OnlyEntryAdds(FormMatrix(a, v, w), FormMatrix(b, v, w));
  }

  lemma FormMinus(a: Matrix, b: Matrix, v: Matrix, w: Matrix)
    requires SameSize(a, b) && IsColumn(v, Rows(a)) && IsColumn(w, Cols(a))
    ensures SameSize(Minus(a, b), a)
    ensures Form(Minus(a, b), v, w) == Form(a, v, w) - Form(b, v, w)
  {
    hide Form, Plus, Minus;
    MinusPlus(a, b);
    FormPlus(Minus(a, b), b, v, w);
  }

  lemma FormPlusLeft(m: Matrix, x: Matrix, y: Matrix, w: Matrix)
    requires IsColumn(x, Rows(m)) && IsColumn(y, Rows(m)) && IsColumn(w, Cols(m))
    ensures IsColumn(Plus(x, y), Rows(m))
    ensures Form(m, Plus(x, y), w) == Form(m, x, w) + Form(m, y, w)
  {
    hide Product, Transpose, Plus;
    PlusSize(x, y);
    TransposeSize(x);
    TransposeSize(y);
    TransposePlus(x, y);
    PlusProduct(Transpose(x), Transpose(y), m);
    ProductSize(Transpose(x), m);
    ProductSize(Transpose(y), m);
    PlusProduct(Product(Transpose(x), m), Product(Transpose(y), m), w);
    OnlyEntryAdds(FormMatrix(m, x, w), FormMatrix(m, y, w));
  }

  lemma FormPlusRight(m: Matrix, v: Matrix, x: Matrix, y: Matrix)
    requires IsColumn(v, Rows(m)) && IsColumn(x, Cols(m)) && IsColumn(y, Cols(m))
    ensures IsColumn(Plus(x, y), Cols(m))
    ensures Form(m, v, Plus(x, y)) == Form(m, v, x) + Form(m, v, y)
  {
    hide Product, Transpose, Plus;
    PlusSize(x, y);
    TransposeSize(v);
    ProductSize(Transpose(v), m);
    ProductPlus(Product(Transpose(v), m), x, y);
    OnlyEntryAdds(FormMatrix(m, v, x), FormMatrix(m, v, y));
  }

  lemma FormSymmetric(m: Matrix, v: Matrix, w: Matrix)
    requires IsSymmetric(m) && IsColumn(v, Rows(m)) && IsColumn(w, Rows(m))
    ensures Form(m, v, w) == Form(m, w, v)
  {
    hide Product, Transpose;
    TransposeSize(v);
    TransposeSize(w);
    ProductSize(Transpose(v), m);
    ProductSize(m, w);
    var r := FormMatrix(m, v, w);
    TransposeProduct(Product(Transpose(v), m), w);
    TransposeProduct(Transpose(v), m);
    TransposeTwice(v);
    ProductAssociative(Transpose(w), m, v);
    TransposeAt(r, 0, 0);
  }

  /** (v - u)^T M (v - u) for a symmetric M. */
  lemma FormOfDifference(m: Matrix, v: Matrix, u: Matrix)
    requires IsSymmetric(m) && IsColumn(v, Rows(m)) && IsColumn(u, Rows(m))
    ensures IsColumn(Minus(v, u), Rows(m))
    ensures Form(m, Minus(v, u), Minus(v, u)) == Form(m, v, v) - 2.0 * Form(m, v, u) + Form(m, u, u)
  {
    hide Form, Plus, Minus, Transpose;
    var w := Minus(v, u);
    PlusSize(v, u);
    MinusPlus(v, u);
    FormPlusLeft(m, w, u, v);
    FormPlusRight(m, w, w, u);
    FormPlusRight(m, u, w, u);
    FormPlusLeft(m, w, u, u);
    FormSymmetric(m, u, w);
  }

  // ---------- predict and update ----------

  /** A P A^T is positive semidefinite when P is. */
  lemma SandwichPsd(a: Matrix, p: Matrix)
    requires IsPsd(p) && Cols(a) == Rows(p)
    ensures Rows(Product(a, p)) == Rows(a) && Cols(Product(a, p)) == Cols(p) && Rows(Transpose(a)) == Cols(a) && Cols(Transpose(a)) == Rows(a)
    ensures IsPsd(Product(Product(a, p), Transpose(a)))
  {
    hide Form, Product, Transpose;
    ProductSize(a, p);
    TransposeSize(a);
    ProductSize(Product(a, p), Transpose(a));
    var m := Product(Product(a, p), Transpose(a));
    forall v: Matrix | IsColumn(v, Rows(m))
      ensures Form(m, v, v) >= 0.0
    {
      SandwichForm(a, p, v);
    }
  }

  /** v^T (A P A^T) v = (A^T v)^T P (A^T v). */
  lemma SandwichForm(a: Matrix, p: Matrix, v: Matrix)
    requires IsSquare(p) && Cols(a) == Rows(p) && IsColumn(v, Rows(a))
    ensures Rows(Product(a, p)) == Rows(a) && Cols(Product(a, p)) == Cols(p) && Rows(Transpose(a)) == Cols(a) && Cols(Transpose(a)) == Rows(a)
    ensures var m := Product(Product(a, p), Transpose(a));
      var u := Product(Transpose(a), v);
      IsColumn(u, Rows(p)) && Rows(m) == Cols(m) == Rows(a) && Form(m, v, v) == Form(p, u, u)
  {
    hide Form, Product, Transpose;
    ProductSize(a, p);
    TransposeSize(a);
    FormRight(Product(a, p), Transpose(a), v, v);
    FormLeft(a, p, v, Product(Transpose(a), v));
  }

  lemma PlusPsd(a: Matrix, b: Matrix)
    requires IsPsd(a) && IsPsd(b) && SameSize(a, b)
    ensures IsPsd(Plus(a, b))
  {
    hide Form, Plus;
    PlusSize(a, b);
    forall v: Matrix | IsColumn(v, Rows(a))
      ensures Form(Plus(a, b), v, v) >= 0.0
    {
      FormPlus(a, b, v, v);
    }
  }

  lemma PredictedPsd(f: FilterValue, a: Matrix)
    requires IsPsd(f.p) && IsPsd(f.q) && Predicted(f, a).Ok?
    ensures IsPsd(Predicted(f, a).value)
  {
    hide Form, Product, Transpose, Plus, IsPsd;
    PsdIsSquare(f.p);
    SandwichPsd(a, f.p);
    PlusPsd(TrySandwich(a, f.p).value, f.q);
  }

  lemma PsdIsSquare(m: Matrix)
    requires IsPsd(m)
    ensures IsSquare(m)
  {
  }

  /** v^T K S v' and v^T Pp H^T v' agree on v' = K^T v, when the gain solves its equation. */
  lemma GainForms(f: FilterValue, pp: Matrix, v: Matrix)
    requires GainOf(f, pp).Ok? && Innovation(f, pp).Ok? && IsSquare(Innovation(f, pp).value) && IsSquare(pp)
    requires InvertsRightly(Innovation(f, pp).value) && IsColumn(v, Rows(pp))
    ensures var k, s := GainOf(f, pp).value, Innovation(f, pp).value;
      && Rows(k) == Rows(pp) && Cols(k) == Rows(s) == Rows(f.h) && Cols(f.h) == Rows(pp) && Cols(Transpose(k)) == Rows(v)
      && var y := Product(Transpose(k), v);
      && IsColumn(y, Rows(s)) && Cols(Transpose(f.h)) == Rows(y)
      && var u := Product(Transpose(f.h), y);
      && IsColumn(u, Rows(pp)) && Form(s, y, y) == Form(pp, v, u)
  {
    hide Form, Product, Transpose, Innovation, GainOf, InverseOf, InvertsRightly;
    GainParts(f, pp);
    GainSolves(f, pp);
    var k, s := GainOf(f, pp).value, Innovation(f, pp).value;
    TransposeSize(f.h);
    ProductSize(pp, Transpose(f.h));
    ProductSize(Product(pp, Transpose(f.h)), InverseOf(s).value);
    TransposeSize(k);
    ProductSize(Transpose(k), v);
    var y := Product(Transpose(k), v);
    ProductSize(Transpose(f.h), y);
    FormLeft(k, s, v, y);
    FormRight(pp, Transpose(f.h), v, y);
  }

  lemma InnovationForm(f: FilterValue, pp: Matrix, y: Matrix)
    requires Innovation(f, pp).Ok? && IsSquare(pp) && IsColumn(y, Rows(f.h))
    ensures Cols(f.h) == Rows(pp) && Cols(Transpose(f.h)) == Rows(y) && IsSquare(Innovation(f, pp).value) && IsSquare(f.r)
    ensures Rows(f.r) == Rows(f.h) == Rows(Innovation(f, pp).value)
    ensures var u := Product(Transpose(f.h), y);
      IsColumn(u, Rows(pp)) && Form(Innovation(f, pp).value, y, y) == Form(pp, u, u) + Form(f.r, y, y)
  {
    hide Form, Product, Transpose, Plus;
    InnovationSize(f, pp);
    TransposeSize(f.h);
    ProductSize(f.h, pp);
    ProductSize(Product(f.h, pp), Transpose(f.h));
    ProductSize(Transpose(f.h), y);
    var hph := Product(Product(f.h, pp), Transpose(f.h));
    PlusSize(hph, f.r);
    SandwichForm(f.h, pp, y);
    FormPlus(hph, f.r, y, y);
  }

  /** v^T (K H Pp) v = (H^T K^T v)^T Pp v. */
  lemma CorrectionForm(k: Matrix, h: Matrix, pp: Matrix, v: Matrix)
    requires Cols(k) == Rows(h) && Cols(h) == Rows(pp) && IsSymmetric(pp) && Rows(k) == Rows(pp) && IsColumn(v, Rows(pp))
    ensures Cols(Transpose(k)) == Rows(v) && Cols(Transpose(h)) == Rows(Product(Transpose(k), v))
    ensures Cols(Product(k, h)) == Rows(pp)
    ensures var u := Product(Transpose(h), Product(Transpose(k), v));
      var khp := Product(Product(k, h), pp);
      IsColumn(u, Rows(pp)) && SameSize(khp, pp) && Form(khp, v, v) == Form(pp, v, u)
  {
    hide Form, Product, Transpose;
    TransposeSize(k);
    TransposeSize(h);
    ProductSize(k, h);
    ProductSize(Product(k, h), pp);
    ProductSize(Transpose(k), v);
    ProductSize(Transpose(h), Product(Transpose(k), v));
    FormLeft(Product(k, h), pp, v, v);
    TransposeProduct(k, h);
    ProductAssociative(Transpose(h), Transpose(k), v);
    FormSymmetric(pp, Product(Transpose(h), Product(Transpose(k), v)), v);
  }

  /** The Joseph form: v^T (Pp - K H Pp) v = w^T Pp w + y^T R y with y = K^T v and w = v - H^T y. */
  lemma JosephForm(f: FilterValue, pp: Matrix, v: Matrix)
    requires GainOf(f, pp).Ok? && Innovation(f, pp).Ok? && IsSquare(Innovation(f, pp).value) && IsSymmetric(pp)
    requires InvertsRightly(Innovation(f, pp).value) && IsColumn(v, Rows(pp))
    requires Updated(f, GainOf(f, pp).value, pp).Ok?
    ensures var k := GainOf(f, pp).value;
      && Cols(Transpose(k)) == Rows(v) && IsSquare(f.r) && Rows(f.r) == Rows(f.h)
      && var y := Product(Transpose(k), v);
      && IsColumn(y, Rows(f.h)) && Cols(Transpose(f.h)) == Rows(y)
      && var u := Product(Transpose(f.h), y);
      && IsColumn(u, Rows(pp)) && IsColumn(Minus(v, u), Rows(pp))
      && SameSize(Updated(f, k, pp).value, pp)
      && Form(Updated(f, k, pp).value, v, v) == Form(pp, Minus(v, u), Minus(v, u)) + Form(f.r, y, y)
  {
    hide Form, Product, Transpose, Minus, Innovation, GainOf, InverseOf, InvertsRightly;
    GainForms(f, pp, v);
    var k := GainOf(f, pp).value;
    var y := Product(Transpose(k), v);
    var u := Product(Transpose(f.h), y);
    InnovationForm(f, pp, y);
    CorrectionForm(k, f.h, pp, v);
    FormMinus(pp, Product(Product(k, f.h), pp), v, v);
    FormOfDifference(pp, v, u);
  }

  /** The update keeps the covariance positive semidefinite wherever `inverse` inverts the innovation covariance. */
  lemma UpdatedPsd(f: FilterValue, pp: Matrix)
    requires IsPsd(pp) && IsSymmetric(pp) && IsPsd(f.r)
    requires GainOf(f, pp).Ok? && Innovation(f, pp).Ok? && IsSquare(Innovation(f, pp).value)
    requires InvertsRightly(Innovation(f, pp).value) && Updated(f, GainOf(f, pp).value, pp).Ok?
    ensures IsPsd(Updated(f, GainOf(f, pp).value, pp).value)
  {
    hide Form, Product, Transpose, Minus, Innovation, GainOf, InverseOf, InvertsRightly, Updated;
    var p' := Updated(f, GainOf(f, pp).value, pp).value;
    UpdatedSize(f, GainOf(f, pp).value, pp);
    forall v: Matrix | IsColumn(v, Rows(p'))
      ensures Form(p', v, v) >= 0.0
    {
      JosephForm(f, pp, v);
    }
  }

  lemma UpdatedSize(f: FilterValue, k: Matrix, pp: Matrix)
    requires Updated(f, k, pp).Ok?
    ensures SameSize(Updated(f, k, pp).value, pp)
  {
    hide Product;
    PlusSize(pp, Product(Product(k, f.h), pp));
  }

  // ---------- over runs ----------

  ghost predicate PsdFilter(f: FilterValue) {
    SymmetricFilter(f) && IsPsd(f.p) && IsPsd(f.q) && IsPsd(f.r)
  }

  /** What this call asks of `inverse`: of the matrices of determinant 1 only those it inverts. */
  ghost predicate SafeCall(f: FilterValue, a: Matrix) {
    f.first
    || (Predicted(f, a).Ok? && Innovation(f, Predicted(f, a).value).Ok?
        && var s := Innovation(f, Predicted(f, a).value).value;
        IsSquare(s) && (DetOf(s) == 1.0 ==> InvertsRightly(s)))
  }

  /** A call that does not throw keeps the covariance positive semidefinite: with one measured quantity too, because it is then ignored. */
  lemma RunOnceKeepsPsd(f: FilterValue, a: Matrix, z: Matrix)
    requires PsdFilter(f) && SafeCall(f, a) && RunOnce(f, a, z).1.Ok?
    ensures PsdFilter(RunOnce(f, a, z).0)
  {
    hide DetOf, Product, Transpose, Plus, Minus, InverseOf, Innovation, GainOf, Estimate, Updated, Predicted, IsPsd, InvertsRightly;
    RunOnceKeepsSymmetry(f, a, z);
    if !f.first {
      var pp := Predicted(f, a).value;
      PredictedPsd(f, a);
      PredictedSymmetric(f, a);
      GainParts(f, pp);
      RightOrSingle(Innovation(f, pp).value);
      if InvertsRightly(Innovation(f, pp).value) {
        UpdatedPsd(f, pp);
      } else {
        OneMeasurementIsIgnored(f, a, z);
      }
    }
  }

  lemma RightOrSingle(s: Matrix)
    requires IsSquare(s) && (DetOf(s) == 1.0 ==> InvertsRightly(s))
    ensures InvertsRightly(s) || (Rows(s) == 1 && DetOf(s) != 1.0)
  {
    hide DetOf, Product;
  }

  ghost predicate SafeCalls(f: FilterValue, ms: seq<Measurement>) {
    ms == [] || (SafeCalls(f, ms[..|ms| - 1]) && SafeCall(RunAll(f, ms[..|ms| - 1]).0, ms[|ms| - 1].a))
  }

  /** Over every sequence of calls that does not throw and asks `inverse` for no determinant-1 matrix it gets wrong, P stays positive semidefinite. */
  lemma {:induction false} RunsKeepPsd(f: FilterValue, ms: seq<Measurement>)
    requires PsdFilter(f) && SafeCalls(f, ms) && RunAll(f, ms).1
    ensures PsdFilter(RunAll(f, ms).0)
  {
    hide RunOnce, SafeCall, PsdFilter;
    if ms != [] {
      var n := |ms| - 1;
      RunsKeepPsd(f, ms[..n]);
      RunOnceKeepsPsd(RunAll(f, ms[..n]).0, ms[n].a, ms[n].z);
    }
  }

  // ---------- a call that asks `inverse` for the wrong matrix ----------

  ghost function Diagonal(x: real, y: real): Matrix {
    [[x, 0.0], [0.0, y]]
  }

  lemma DiagonalProduct(x: real, y: real, u: real, v: real)
    ensures Product(Diagonal(x, y), Diagonal(u, v)) == Diagonal(x * u, y * v)
  {
    var a, b := Diagonal(x, y), Diagonal(u, v);
    forall i, j | 0 <= i < 2 && 0 <= j < 2
      ensures Product(a, b)[i][j] == Diagonal(x * u, y * v)[i][j]
    {
      EntryIs(a);
      EntryIs(b);
      var f := DotTerm(a, b, i, j);
      ProductAt(a, b, i, j);
      assert Sum(2, f) == Sum(1, f) + f(1) && Sum(1, f) == Sum(0, f) + f(0);
      assert f(0) == a[i][0] * b[0][j] && f(1) == a[i][1] * b[1][j];
    }
    EqualMatrices(Product(a, b), Diagonal(x * u, y * v));
  }

  lemma DiagonalSums(x: real, y: real, u: real, v: real)
    ensures Plus(Diagonal(x, y), Diagonal(u, v)) == Diagonal(x + u, y + v)
    ensures Minus(Diagonal(x, y), Diagonal(u, v)) == Diagonal(x - u, y - v)
    ensures Transpose(Diagonal(x, y)) == Diagonal(x, y)
  {
    EntryIs(Diagonal(x, y));
    EntryIs(Diagonal(u, v));
    EqualMatrices(Plus(Diagonal(x, y), Diagonal(u, v)), Diagonal(x + u, y + v));
    EqualMatrices(Minus(Diagonal(x, y), Diagonal(u, v)), Diagonal(x - u, y - v));
    EqualMatrices(Transpose(Diagonal(x, y)), Diagonal(x, y));
  }

  lemma RowTimesDiagonal(p: real, q: real, x: real, y: real)
    ensures var row: Matrix := [[p, q]];
      Product(row, Diagonal(x, y)) == [[p * x, q * y]]
  {
    var row: Matrix := [[p, q]];
    var m := Diagonal(x, y);
    var r: Matrix := [[p * x, q * y]];
    EntryIs(row);
    EntryIs(m);
    forall j | 0 <= j < 2
      ensures Product(row, m)[0][j] == r[0][j]
    {
      var f := DotTerm(row, m, 0, j);
      ProductAt(row, m, 0, j);
      assert Sum(2, f) == Sum(1, f) + f(1) && Sum(1, f) == Sum(0, f) + f(0);
      assert f(0) == p * m[0][j] && f(1) == q * m[1][j];
    }
    EqualMatrices(Product(row, m), r);
  }

  lemma RowTimesColumn(a: real, b: real, p: real, q: real)
    ensures var row: Matrix := [[a, b]];
      var column: Matrix := [[p], [q]];
      Product(row, column)[0][0] == a * p + b * q
  {
    var row: Matrix := [[a, b]];
    var column: Matrix := [[p], [q]];
    EntryIs(row);
    EntryIs(column);
    var f := DotTerm(row, column, 0, 0);
    ProductAt(row, column, 0, 0);
    assert Sum(2, f) == Sum(1, f) + f(1) && Sum(1, f) == Sum(0, f) + f(0);
    assert f(0) == a * p && f(1) == b * q;
  }

  lemma ColumnOfTwo(v: Matrix)
    requires IsColumn(v, 2)
    ensures v == [[v[0][0]], [v[1][0]]] && Transpose(v) == [[v[0][0], v[1][0]]]
  {
    var column: Matrix := [[v[0][0]], [v[1][0]]];
    var row: Matrix := [[v[0][0], v[1][0]]];
    EqualMatrices(v, column);
    TransposeAt(v, 0, 0);
    TransposeAt(v, 0, 1);
    EqualMatrices(Transpose(v), row);
  }

  lemma DiagonalForm(x: real, y: real, v: Matrix)
    requires IsColumn(v, 2)
    ensures Form(Diagonal(x, y), v, v) == x * (v[0][0] * v[0][0]) + y * (v[1][0] * v[1][0])
  {
    hide Product, Transpose;
    var p, q := v[0][0], v[1][0];
    ColumnOfTwo(v);
    RowTimesDiagonal(p, q, x, y);
    RowTimesColumn(p * x, q * y, p, q);
    Regroup(p, x);
    Regroup(q, y);
  }

  lemma Regroup(p: real, x: real)
    ensures (p * x) * p == x * (p * p)
  {
  }

  lemma DiagonalPsdIff(x: real, y: real)
    ensures IsPsd(Diagonal(x, y)) <==> x >= 0.0 && y >= 0.0
  {
    hide Form;
    if x >= 0.0 && y >= 0.0 {
      forall v: Matrix | IsColumn(v, 2)
        ensures Form(Diagonal(x, y), v, v) >= 0.0
      {
        DiagonalForm(x, y, v);
        SquareTimes(x, v[0][0]);
        SquareTimes(y, v[1][0]);
      }
    } else {
      var first: Matrix := [[1.0], [0.0]];
      var second: Matrix := [[0.0], [1.0]];
      DiagonalForm(x, y, first);
      DiagonalForm(x, y, second);
    }
  }

  lemma SquareTimes(x: real, v: real)
    requires x >= 0.0
    ensures x * (v * v) >= 0.0
  {
    assert v * v >= 0.0;
  }

  ghost function NoiselessFilter(): FilterValue {
    FilterValue(Diagonal(1.0, 1.0), Diagonal(0.0, 0.0), Diagonal(0.0, 0.0), [[0.0], [0.0]], Diagonal(2.0, 0.5), false)
  }

  lemma NoiselessIsPsd()
    ensures PsdFilter(NoiselessFilter())
  {
    hide Form, IsPsd, Product, Plus, Minus, Transpose, Diagonal;
    DiagonalsAreSmall();
    DiagonalPsdIff(0.0, 0.0);
    DiagonalPsdIff(2.0, 0.5);
    DiagonalSums(0.0, 0.0, 0.0, 0.0);
    DiagonalSums(2.0, 0.5, 0.0, 0.0);
  }

  lemma NoiselessPredicts()
    ensures Predicted(NoiselessFilter(), Diagonal(1.0, 1.0)) == Ok(Diagonal(2.0, 0.5))
    ensures Innovation(NoiselessFilter(), Diagonal(2.0, 0.5)) == Ok(Diagonal(2.0, 0.5))
  {
    hide Product, Plus, Minus, Transpose, Diagonal;
    DiagonalsAreSmall();
    DiagonalSums(1.0, 1.0, 0.0, 0.0);
    DiagonalProduct(1.0, 1.0, 2.0, 0.5);
    DiagonalProduct(2.0, 0.5, 1.0, 1.0);
    DiagonalSums(2.0, 0.5, 0.0, 0.0);
  }

  lemma NoiselessGain()
    ensures GainOf(NoiselessFilter(), Diagonal(2.0, 0.5)) == Ok(Diagonal(2.0, 0.25))
  {
    hide Product, Plus, Minus, Transpose, Diagonal, Innovation, InverseOf;
    DiagonalsAreSmall();
    NoiselessPredicts();
    DiagonalSums(1.0, 1.0, 0.0, 0.0);
    DiagonalProduct(2.0, 0.5, 1.0, 1.0);
    UnitDiagonalInverse();
    DiagonalProduct(2.0, 0.5, 1.0, 0.5);
  }

  /** Two measured quantities, no noise, P = diag(2, 1/2): the innovation covariance has determinant 1 and the new covariance is diag(-2, 3/8). */
  lemma UnitDeterminantBreaksPsd()
    ensures PsdFilter(NoiselessFilter())
    ensures NewCovariance(NoiselessFilter(), Diagonal(1.0, 1.0)) == Ok(Diagonal(-2.0, 0.375))
    ensures !IsPsd(Diagonal(-2.0, 0.375))
  {
    hide IsPsd, Product, Plus, Minus, Transpose, Diagonal, PsdFilter, Predicted, GainOf;
    DiagonalsAreSmall();
    NoiselessIsPsd();
    NoiselessPredicts();
    NoiselessGain();
    DiagonalPsdIff(-2.0, 0.375);
    DiagonalProduct(2.0, 0.25, 1.0, 1.0);
    DiagonalProduct(2.0, 0.25, 2.0, 0.5);
    DiagonalSums(2.0, 0.5, 4.0, 0.125);
  }

  lemma DiagonalsAreSmall()
    ensures forall x: real, y: real :: Rows(Diagonal(x, y)) == Cols(Diagonal(x, y)) == 2
  {
  }

  lemma UnitDiagonalInverse()
    ensures InverseOf(Diagonal(2.0, 0.5)) == Ok(Diagonal(1.0, 0.5))
  {
    var m := Diagonal(2.0, 0.5);
    assert Range(2) == [0, 1];
    TwoByTwoDet(Entry(m));
    EntryIs(m);
    assert DetOf(m) == 1.0 by { hide Det; }
    EqualMatrices(WithUnitCorner(m), Diagonal(1.0, 0.5));
  }
}

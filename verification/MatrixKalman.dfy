/** The matrix Kalman filter: its value semantics, the fields it updates, and the symmetry of its covariance over every run. */
module MatrixKalman {
  import opened Wrappers
  import opened MatrixAlgebra
  import opened Inverse
  import opened InverseProof
  import MatrixCode

  datatype FilterValue = FilterValue(h: Matrix, q: Matrix, r: Matrix, x: Matrix, p: Matrix, first: bool)

  type Outcome = Result<Matrix, MatrixError>

  ghost function TryProduct(a: Matrix, b: Matrix): Outcome {
    if Cols(a) == Rows(b) then Ok(Product(a, b)) else Err(SizeMismatch)
  }

  ghost function TryPlus(a: Matrix, b: Matrix): Outcome {
    if SameSize(a, b) then Ok(Plus(a, b)) else Err(SizeMismatch)
  }

  ghost function TryMinus(a: Matrix, b: Matrix): Outcome {
    if SameSize(a, b) then Ok(Minus(a, b)) else Err(SizeMismatch)
  }

  /** A P A^T, the products taken from the left. */
  ghost function TrySandwich(a: Matrix, p: Matrix): Outcome {
    var ap :- TryProduct(a, p);
    TryProduct(ap, Transpose(a))
  }

  /** The predicted covariance A P A^T + Q. */
  ghost function Predicted(f: FilterValue, a: Matrix): Outcome {
    var apa :- TrySandwich(a, f.p);
    TryPlus(apa, f.q)
  }

  /** H Pp H^T + R, the matrix the gain inverts. */
  ghost function Innovation(f: FilterValue, pp: Matrix): Outcome {
    var hph :- TrySandwich(f.h, pp);
    TryPlus(hph, f.r)
  }

  /** `inverse`, which the filter applies to square matrices only; another shape is a size error here. */
  ghost function TryInverse(m: Matrix): Outcome {
    if IsSquare(m) then InverseOf(m) else Err(SizeMismatch)
  }

  /** K = (Pp H^T) (H Pp H^T + R)^-1. */
  ghost function GainOf(f: FilterValue, pp: Matrix): Outcome {
    var ph :- TryProduct(pp, Transpose(f.h));
    var s :- Innovation(f, pp);
    var si :- TryInverse(s);
    TryProduct(ph, si)
  }

  /** xp + K (z - H xp). */
  ghost function Estimate(f: FilterValue, k: Matrix, xp: Matrix, z: Matrix): Outcome {
    var hx :- TryProduct(f.h, xp);
    var d :- TryMinus(z, hx);
    var kd :- TryProduct(k, d);
    TryPlus(xp, kd)
  }

  /** Pp - K H Pp. */
  ghost function Updated(f: FilterValue, k: Matrix, pp: Matrix): Outcome {
    var kh :- TryProduct(k, f.h);
    var khp :- TryProduct(kh, pp);
    TryMinus(pp, khp)
  }

  /** Assignment to a matrix keeps its size or throws. */
  ghost function TryAssign(target: Matrix, value: Matrix): Outcome {
    if SameSize(target, value) then Ok(value) else Err(SizeMismatch)
  }

  /** The new estimate, or what throws before it is stored. */
  ghost function NewEstimate(f: FilterValue, a: Matrix, z: Matrix): Outcome {
    var xp :- TryProduct(a, f.x);
    var pp :- Predicted(f, a);
    var k :- GainOf(f, pp);
    var x :- Estimate(f, k, xp, z);
    TryAssign(f.x, x)
  }

  /** The new covariance, computed after the estimate was stored. */
  ghost function NewCovariance(f: FilterValue, a: Matrix): Outcome {
    var pp :- Predicted(f, a);
    var k :- GainOf(f, pp);
    var p :- Updated(f, k, pp);
    TryAssign(f.p, p)
  }

  /** One call of `run`: the filter afterwards and what the call returned or threw. */
  ghost function RunOnce(f: FilterValue, a: Matrix, z: Matrix): (FilterValue, Outcome) {
    if f.first then (f.(first := false), Ok(f.x))
    else
      match NewEstimate(f, a, z)
      case Err(e) => (f, Err(e))
      case Ok(x) =>
        match NewCovariance(f, a)
        case Err(e) => (f.(x := x), Err(e))
        case Ok(p) => (f.(x := x, p := p), Ok(x))
  }

  // ---------- symmetry ----------

  /** A P A^T is symmetric when P is. */
  lemma SandwichSymmetric(a: Matrix, p: Matrix)
    requires IsSymmetric(p) && Cols(a) == Rows(p)
    ensures Product(Product(a, p), Transpose(a)) == Product(a, Product(p, Transpose(a)))
    ensures IsSymmetric(Product(Product(a, p), Transpose(a)))
  {
    hide Product, Transpose;
    ProductSize(a, p);
    TransposeSize(a);
    ProductSize(p, Transpose(a));
    ProductSize(Product(a, p), Transpose(a));
    TransposeProduct(Product(a, p), Transpose(a));
    TransposeTwice(a);
    TransposeProduct(a, p);
    ProductAssociative(a, p, Transpose(a));
  }

  lemma ProductSize(a: Matrix, b: Matrix)
    requires Cols(a) == Rows(b)
    ensures Rows(Product(a, b)) == Rows(a) && Cols(Product(a, b)) == Cols(b)
  {
  }

  lemma TransposeSize(a: Matrix)
    ensures Rows(Transpose(a)) == Cols(a) && Cols(Transpose(a)) == Rows(a)
  {
  }

  lemma SumSymmetric(a: Matrix, b: Matrix)
    requires IsSymmetric(a) && IsSymmetric(b) && SameSize(a, b)
    ensures IsSymmetric(Plus(a, b)) && IsSymmetric(Minus(a, b))
  {
    hide Transpose;
    TransposePlus(a, b);
    TransposeMinus(a, b);
  }

  lemma PredictedSymmetric(f: FilterValue, a: Matrix)
    requires IsSymmetric(f.p) && IsSymmetric(f.q) && Predicted(f, a).Ok?
    ensures IsSymmetric(Predicted(f, a).value)
  {
    hide Product, Transpose, Plus;
    SandwichSymmetric(a, f.p);
    SumSymmetric(TrySandwich(a, f.p).value, f.q);
  }

  lemma InnovationSymmetric(f: FilterValue, pp: Matrix)
    requires IsSymmetric(pp) && IsSymmetric(f.r) && Innovation(f, pp).Ok?
    ensures IsSymmetric(Innovation(f, pp).value)
  {
    hide Product, Transpose, Plus;
    SandwichSymmetric(f.h, pp);
    SumSymmetric(TrySandwich(f.h, pp).value, f.r);
  }

  /** K H Pp = (Pp H^T) S^-1 (Pp H^T)^T when Pp is symmetric. */
  lemma CorrectionIsSandwich(h: Matrix, pp: Matrix, si: Matrix)
    requires IsSymmetric(pp) && Cols(h) == Rows(pp) && IsSymmetric(si) && Rows(si) == Rows(h)
    ensures var g := Product(pp, Transpose(h));
      && Cols(g) == Rows(si) && Rows(g) == Rows(pp)
      && Cols(Product(g, si)) == Rows(h) && Cols(Product(Product(g, si), h)) == Rows(pp)
      && Product(Product(Product(g, si), h), pp) == Product(Product(g, si), Transpose(g))
  {
    hide Product, Transpose;
    TransposeSize(h);
    var g := Product(pp, Transpose(h));
    ProductSize(pp, Transpose(h));
    ProductSize(g, si);
    ProductSize(h, pp);
    ProductSize(Product(g, si), h);
    TransposeProduct(pp, Transpose(h));
    TransposeTwice(h);
    ProductAssociative(Product(g, si), h, pp);
  }

  lemma UpdatedSymmetric(f: FilterValue, pp: Matrix)
    requires IsSymmetric(pp) && IsSymmetric(f.r) && GainOf(f, pp).Ok? && Updated(f, GainOf(f, pp).value, pp).Ok?
    ensures IsSymmetric(Updated(f, GainOf(f, pp).value, pp).value)
  {
    hide Product, Transpose, Plus, Minus, InverseOf;
    InnovationSymmetric(f, pp);
    var s := Innovation(f, pp).value;
    InverseOfSymmetric(s);
    var si := InverseOf(s).value;
    var g := Product(pp, Transpose(f.h));
    TransposeSize(f.h);
    ProductSize(pp, Transpose(f.h));
    InnovationSize(f, pp);
    CorrectionIsSandwich(f.h, pp, si);
    ProductSize(g, si);
    TransposeSize(g);
    SandwichSymmetric(g, si);
    SumSymmetric(pp, Product(Product(g, si), Transpose(g)));
  }

  lemma InnovationSize(f: FilterValue, pp: Matrix)
    requires Innovation(f, pp).Ok?
    ensures Cols(f.h) == Rows(pp) && Rows(Innovation(f, pp).value) == Rows(f.h)
  {
  }

  ghost predicate SymmetricFilter(f: FilterValue) {
    IsSymmetric(f.p) && IsSymmetric(f.q) && IsSymmetric(f.r)
  }

  /** A call that does not throw keeps the covariance symmetric. */
  lemma RunOnceKeepsSymmetry(f: FilterValue, a: Matrix, z: Matrix)
    requires SymmetricFilter(f) && RunOnce(f, a, z).1.Ok?
    ensures SymmetricFilter(RunOnce(f, a, z).0)
  {
    hide Product, Transpose, Plus, Minus, InverseOf;
    if !f.first {
      PredictedSymmetric(f, a);
      UpdatedSymmetric(f, Predicted(f, a).value);
    }
  }

  datatype Measurement = Measurement(a: Matrix, z: Matrix)

  /** The filter after a sequence of calls, and whether none of them threw. */
  ghost function RunAll(f: FilterValue, ms: seq<Measurement>): (FilterValue, bool) {
    if ms == [] then (f, true)
    else
      var (before, ok) := RunAll(f, ms[..|ms| - 1]);
      var m := ms[|ms| - 1];
      var (after, result) := RunOnce(before, m.a, m.z);
      (after, ok && result.Ok?)
  }

  /** Over every sequence of measurements on which `run` does not throw, the covariance stays symmetric. */
  lemma {:induction false} RunsKeepSymmetry(f: FilterValue, ms: seq<Measurement>)
    requires SymmetricFilter(f) && RunAll(f, ms).1
    ensures SymmetricFilter(RunAll(f, ms).0)
  {
    hide RunOnce;
    if ms != [] {
      var n := |ms| - 1;
      RunsKeepSymmetry(f, ms[..n]);
      RunOnceKeepsSymmetry(RunAll(f, ms[..n]).0, ms[n].a, ms[n].z);
    }
  }

  class KalmanFilter {
    const h: array2<real>
    const q: array2<real>
    const r: array2<real>
    const x: array2<real>
    const p: array2<real>
    var first: bool

    ghost predicate Valid() {
      && MatrixCode.Sized(h) && MatrixCode.Sized(q) && MatrixCode.Sized(r)
      && MatrixCode.Sized(x) && MatrixCode.Sized(p)
      && x != p && x != h && x != q && x != r && p != h && p != q && p != r
    }

    ghost function Value(): FilterValue
      requires Valid()
      reads this, h, q, r, x, p
    {
      FilterValue(MatrixCode.View(h), MatrixCode.View(q), MatrixCode.View(r), MatrixCode.View(x), MatrixCode.View(p), first)
    }

    constructor (h: array2<real>, q: array2<real>, r: array2<real>, x: array2<real>, p: array2<real>)
      requires MatrixCode.Sized(h) && MatrixCode.Sized(q) && MatrixCode.Sized(r)
      requires MatrixCode.Sized(x) && MatrixCode.Sized(p)
      ensures Valid() && fresh(this.h) && fresh(this.q) && fresh(this.r) && fresh(this.x) && fresh(this.p)
      ensures Value() == FilterValue(MatrixCode.View(h), MatrixCode.View(q), MatrixCode.View(r), MatrixCode.View(x), MatrixCode.View(p), true)
    {
      var h' := MatrixCode.Copy(h);
      var q' := MatrixCode.Copy(q);
      var r' := MatrixCode.Copy(r);
      var x' := MatrixCode.Copy(x);
      var p' := MatrixCode.Copy(p);
      this.h, this.q, this.r, this.x, this.p := h', q', r', x', p';
      first := true;
    }

    /** `xp = A * _x`. */
    method PredictState(a: array2<real>) returns (result: Result<array2<real>, MatrixError>)
      requires Valid() && MatrixCode.Sized(a)
      ensures result.Ok? ==> fresh(result.value) && MatrixCode.Sized(result.value)
      ensures TryProduct(MatrixCode.View(a), Value().x) == Seen(result)
    {
      result := MatrixCode.Multiply(a, x);
    }

    /** `Pp = A * _P * A^T + _Q`. */
    method Predict(a: array2<real>) returns (result: Result<array2<real>, MatrixError>)
      requires Valid() && MatrixCode.Sized(a)
      ensures result.Ok? ==> fresh(result.value) && MatrixCode.Sized(result.value)
      ensures Predicted(Value(), MatrixCode.View(a)) == Seen(result)
    {
      var ap :- MatrixCode.Multiply(a, p);
      var at := MatrixCode.Transposed(a);
      var apa :- MatrixCode.Multiply(ap, at);
      result := MatrixCode.Add(apa, q);
    }

    /** `K = (Pp * _H^T) * inverse(_H * Pp * _H^T + _R)`. */
    method Gain(pp: array2<real>) returns (result: Result<array2<real>, MatrixError>)
      requires Valid() && MatrixCode.Sized(pp)
      ensures result.Ok? ==> fresh(result.value) && MatrixCode.Sized(result.value)
      ensures GainOf(Value(), MatrixCode.View(pp)) == Seen(result)
    {
      var ht := MatrixCode.Transposed(h);
      var ph :- MatrixCode.Multiply(pp, ht);
      var hp :- MatrixCode.Multiply(h, pp);
      var hph := MatrixCode.Multiply(hp, ht);
      var s :- MatrixCode.Add(hph.value, r);
      var si :- MatrixCode.Invert(s);
      result := MatrixCode.Multiply(ph, si);
    }

    /** `xp + K * (z - _H * xp)`. */
    method Correct(k: array2<real>, xp: array2<real>, z: array2<real>) returns (result: Result<array2<real>, MatrixError>)
      requires Valid() && MatrixCode.Sized(k) && MatrixCode.Sized(xp) && MatrixCode.Sized(z)
      ensures result.Ok? ==> fresh(result.value) && MatrixCode.Sized(result.value)
      ensures Estimate(Value(), MatrixCode.View(k), MatrixCode.View(xp), MatrixCode.View(z)) == Seen(result)
    {
      var hx :- MatrixCode.Multiply(h, xp);
      var d :- MatrixCode.Subtract(z, hx);
      var kd :- MatrixCode.Multiply(k, d);
      result := MatrixCode.Add(xp, kd);
    }

    /** `Pp - K * _H * Pp`. */
    method Update(k: array2<real>, pp: array2<real>) returns (result: Result<array2<real>, MatrixError>)
      requires Valid() && MatrixCode.Sized(k) && MatrixCode.Sized(pp)
      ensures result.Ok? ==> fresh(result.value) && MatrixCode.Sized(result.value)
      ensures Updated(Value(), MatrixCode.View(k), MatrixCode.View(pp)) == Seen(result)
    {
      var kh :- MatrixCode.Multiply(k, h);
      var khp :- MatrixCode.Multiply(kh, pp);
      result := MatrixCode.Subtract(pp, khp);
    }

    /** Everything `run` computes before it stores the estimate. */
    method Forecast(a: array2<real>, z: array2<real>) returns (result: Result<Intermediate, MatrixError>)
      requires Valid() && MatrixCode.Sized(a) && MatrixCode.Sized(z)
      ensures result.Err? ==> NewEstimate(Value(), MatrixCode.View(a), MatrixCode.View(z)) == Err(result.error)
      ensures result.Ok? ==>
        var i := result.value;
        && fresh(i.x) && fresh(i.pp) && fresh(i.k) && MatrixCode.Sized(i.x) && MatrixCode.Sized(i.pp) && MatrixCode.Sized(i.k)
        && i.x != i.pp && i.x != i.k
        && Predicted(Value(), MatrixCode.View(a)) == Ok(MatrixCode.View(i.pp))
        && GainOf(Value(), MatrixCode.View(i.pp)) == Ok(MatrixCode.View(i.k))
        && NewEstimate(Value(), MatrixCode.View(a), MatrixCode.View(z)) == TryAssign(Value().x, MatrixCode.View(i.x))
    {
      hide TryProduct, Predicted, GainOf, Estimate, Updated;
      var xp :- PredictState(a);
      var pp :- Predict(a);
      var k :- Gain(pp);
      var x' :- Correct(k, xp, z);
      var separate := MatrixCode.Copy(x');
      result := Ok(Intermediate(separate, k, pp));
    }

    /** `_x = ...`: the element-wise assignment of the new estimate. */
    method Store(value: array2<real>, target: array2<real>) returns (result: Option<MatrixError>)
      requires MatrixCode.Sized(value) && MatrixCode.Sized(target) && value != target
      modifies target
      ensures match TryAssign(old(MatrixCode.View(target)), MatrixCode.View(value))
              case Ok(v) => result == None && MatrixCode.View(target) == v
              case Err(e) => result == Some(e) && MatrixCode.View(target) == old(MatrixCode.View(target))
    {
      if value.Length0 != target.Length0 || value.Length1 != target.Length1 {
        return Some(SizeMismatch);
      }
      MatrixCode.CopyInto(value, target);
      result := None;
    }

    /** Forecast and store the estimate. */
    method StoreEstimate(a: array2<real>, z: array2<real>) returns (result: Result<Intermediate, MatrixError>)
      requires Valid() && MatrixCode.Sized(a) && MatrixCode.Sized(z)
      modifies x
      ensures result.Err? ==> Value() == old(Value()) && NewEstimate(old(Value()), old(MatrixCode.View(a)), old(MatrixCode.View(z))) == Err(result.error)
      ensures result.Ok? ==>
        var i := result.value;
        && fresh(i.pp) && fresh(i.k) && MatrixCode.Sized(i.pp) && MatrixCode.Sized(i.k)
        && Predicted(old(Value()), old(MatrixCode.View(a))) == Ok(MatrixCode.View(i.pp))
        && GainOf(old(Value()), MatrixCode.View(i.pp)) == Ok(MatrixCode.View(i.k))
        && NewEstimate(old(Value()), old(MatrixCode.View(a)), old(MatrixCode.View(z))) == Ok(MatrixCode.View(x))
        && Value() == old(Value()).(x := MatrixCode.View(x))
    {
      hide Predicted, GainOf, NewEstimate, TryAssign, IsMatrix;
      var i :- Forecast(a, z);
      var failed := Store(i.x, x);
      if failed.Some? {
        return Err(failed.value);
      }
      result := Ok(i);
    }

    /** Compute and store the covariance. */
    method StoreCovariance(k: array2<real>, pp: array2<real>) returns (failed: Option<MatrixError>)
      requires Valid() && MatrixCode.Sized(k) && MatrixCode.Sized(pp) && k != p && pp != p
      modifies p
      ensures match StoredCovariance(old(Value()), old(MatrixCode.View(k)), old(MatrixCode.View(pp)))
              case Err(e) => failed == Some(e) && Value() == old(Value())
              case Ok(v) => failed == None && Value() == old(Value()).(p := v)
    {
      hide Updated, TryAssign, IsMatrix;
      var p' := Update(k, pp);
      if p'.Err? {
        return Some(p'.error);
      }
      failed := Store(p'.value, p);
    }

    /** `run`: the first call only clears the flag; a throw after the estimate was stored leaves the new estimate behind. */
    method Run(a: array2<real>, z: array2<real>) returns (result: Result<array2<real>, MatrixError>)
      requires Valid() && MatrixCode.Sized(a) && MatrixCode.Sized(z)
      requires a != x && a != p && z != x && z != p
      modifies this, x, p
      ensures Valid() && (result.Ok? ==> fresh(result.value) && MatrixCode.Sized(result.value))
      ensures (Value(), Seen(result)) == RunOnce(old(Value()), old(MatrixCode.View(a)), old(MatrixCode.View(z)))
    {
      hide RunOnce, Predicted, GainOf, NewEstimate, NewCovariance, StoredCovariance, IsMatrix;
      RunOnceOutcomes(Value(), MatrixCode.View(a), MatrixCode.View(z));
      if !first {
        ghost var before, va := Value(), MatrixCode.View(a);
        var i :- StoreEstimate(a, z);
        NewCovarianceIs(before, Value(), va, MatrixCode.View(i.pp), MatrixCode.View(i.k));
        var failed := StoreCovariance(i.k, i.pp);
        if failed.Some? {
          return Err(failed.value);
        }
      } else {
        first := false;
      }
      var copy := MatrixCode.Copy(x);
      result := Ok(copy);
    }
  }

  ghost function StoredCovariance(f: FilterValue, k: Matrix, pp: Matrix): Outcome {
    var p :- Updated(f, k, pp);
    TryAssign(f.p, p)
  }

  lemma RunOnceOutcomes(f: FilterValue, a: Matrix, z: Matrix)
    ensures f.first ==> RunOnce(f, a, z) == (f.(first := false), Ok(f.x))
    ensures !f.first && NewEstimate(f, a, z).Err? ==> RunOnce(f, a, z) == (f, NewEstimate(f, a, z))
    ensures !f.first && NewEstimate(f, a, z).Ok? && NewCovariance(f, a).Err? ==>
      RunOnce(f, a, z) == (f.(x := NewEstimate(f, a, z).value), NewCovariance(f, a))
    ensures !f.first && NewEstimate(f, a, z).Ok? && NewCovariance(f, a).Ok? ==>
      RunOnce(f, a, z) == (f.(x := NewEstimate(f, a, z).value, p := NewCovariance(f, a).value), NewEstimate(f, a, z))
  {
  }

  /** Storing the estimate does not change what the covariance update computes. */
  lemma NewCovarianceIs(f: FilterValue, g: FilterValue, a: Matrix, pp: Matrix, k: Matrix)
    requires Predicted(f, a) == Ok(pp) && GainOf(f, pp) == Ok(k) && g == f.(x := g.x)
    ensures NewCovariance(f, a) == StoredCovariance(g, k, pp)
  {
  }

  datatype Intermediate = Intermediate(x: array2<real>, k: array2<real>, pp: array2<real>)

  /** The value of a buffer result. */
  ghost function Seen(result: Result<array2<real>, MatrixError>): Outcome
    requires result.Ok? ==> MatrixCode.Sized(result.value)
    reads if result.Ok? then {result.value} else {}
  {
    match result
    case Ok(m) => Ok(MatrixCode.View(m))
    case Err(e) => Err(e)
  }
}

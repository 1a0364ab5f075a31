/** Unsigned machine words as naturals: shifts are repeated halving, `|` and `&` act digit by digit. */
module Bits {

  function Pow2(k: nat): (p: nat)
    ensures p >= 1
  {
    if k == 0 then 1 else 2 * Pow2(k - 1)
  }

  ghost predicate IsPow2(n: nat) {
    exists k: nat :: n == Pow2(k)
  }

  /** Right shift: k halvings. */
  function Shr(a: nat, k: nat): nat
    decreases k
  {
    if k == 0 then a else Shr(a / 2, k - 1)
  }

  function Or(a: nat, b: nat): nat
    decreases a
  {
    if a == 0 then b else 2 * Or(a / 2, b / 2) + (if a % 2 == 1 || b % 2 == 1 then 1 else 0)
  }

  function And(a: nat, b: nat): nat {
    if a == 0 then 0 else 2 * And(a / 2, b / 2) + (if a % 2 == 1 && b % 2 == 1 then 1 else 0)
  }

  lemma {:induction false} Pow2Add(i: nat, j: nat)
    ensures Pow2(i + j) == Pow2(i) * Pow2(j)
  {
    if i > 0 {
      Pow2Add(i - 1, j);
      assert i + j - 1 == (i - 1) + j;
      assert 2 * Pow2(i - 1) * Pow2(j) == 2 * (Pow2(i - 1) * Pow2(j));
    }
  }

  lemma {:induction false} Pow2Monotone(i: nat, j: nat)
    requires i <= j
    ensures Pow2(i) <= Pow2(j)
  {
    if i < j { Pow2Monotone(i, j - 1); }
  }

  lemma {:induction false} Pow2StrictlyMonotone(i: nat, j: nat)
    requires i < j
    ensures Pow2(i) < Pow2(j)
  {
    Pow2Monotone(i, j - 1);
  }

  lemma DivDiv(a: nat, m: nat, n: nat)
    requires m > 0 && n > 0
    ensures m * n > 0 && (a / m) / n == a / (m * n)
  {
    var q := a / m;
    var r := a % m;
    var q2 := q / n;
    var r2 := q % n;
    assert a == m * q + r && q == n * q2 + r2;
    assert m * n >= 1 by { MulPositive(m, n); }
    calc {
      a;
      m * (n * q2 + r2) + r;
      { Distribute(m, n * q2, r2); }
      m * (n * q2) + m * r2 + r;
      { MulAssociative(m, n, q2); }
      (m * n) * q2 + (m * r2 + r);
    }
    assert 0 <= m * r2 + r < m * n by {
      MulMonotone(m, r2, n - 1);
      Distribute(m, n, -1);
    }
    DivUnique(a, m * n, q2, m * r2 + r);
  }

  lemma MulPositive(m: nat, n: nat)
    requires m > 0 && n > 0
    ensures m * n > 0
  {
  }

  lemma Distribute(m: int, a: int, b: int)
    ensures m * (a + b) == m * a + m * b
  {
  }

  lemma MulAssociative(a: int, b: int, c: int)
    ensures a * (b * c) == (a * b) * c
  {
  }

  lemma MulMonotone(m: nat, a: int, b: int)
    requires a <= b
    ensures m * a <= m * b
  {
  }

  lemma DivUnique(a: int, d: int, q: int, r: int)
    requires d > 0 && 0 <= r < d && a == d * q + r
    ensures a / d == q && a % d == r
  {
    var q', r' := a / d, a % d;
    assert a == d * q' + r';
    assert d * (q - q') == r' - r by { Distribute(d, q, -q'); }
    if q > q' { MulMonotone(d, 1, q - q'); }
    if q < q' { MulMonotone(d, q - q', -1); }
  }

  lemma {:induction false} ShrShr(a: nat, i: nat, j: nat)
    ensures Shr(Shr(a, i), j) == Shr(a, i + j)
    decreases i
  {
    if i > 0 { ShrShr(a / 2, i - 1, j); }
  }

  /** Shifting right by k divides by 2^k. */
  lemma {:induction false} ShrDivides(a: nat, k: nat)
    ensures Shr(a, k) == a / Pow2(k)
    decreases k
  {
    if k > 0 {
      ShrDivides(a / 2, k - 1);
      DivDiv(a, 2, Pow2(k - 1));
    }
  }

  lemma {:induction false} OrBounds(a: nat, b: nat, k: nat)
    requires a < Pow2(k) && b < Pow2(k)
    ensures Or(a, b) < Pow2(k) && Or(a, b) >= a && Or(a, b) >= b
  {
    if k > 0 { OrBounds(a / 2, b / 2, k - 1); }
  }

  lemma {:induction false} OrHalf(a: nat, b: nat)
    ensures Or(a, b) / 2 == Or(a / 2, b / 2)
  {
  }

  /** Shifting distributes over `|`. */
  lemma {:induction false} ShrOr(a: nat, b: nat, k: nat)
    ensures Shr(Or(a, b), k) == Or(Shr(a, k), Shr(b, k))
    decreases k
  {
    if k > 0 {
      OrHalf(a, b);
      ShrOr(a / 2, b / 2, k - 1);
    }
  }

  /** `|` with a run of k ones sets the low k bits and keeps the others. */
  lemma {:induction false} OrOnes(a: nat, k: nat)
    ensures Or(a, Pow2(k) - 1) == Pow2(k) * Shr(a, k) + Pow2(k) - 1
    decreases k
  {
    hide Or;
    if k > 0 {
      var h := Pow2(k - 1);
      OrOnes(a / 2, k - 1);
      OrOdd(a, 2 * h - 1, h - 1);
      MulAssociative(2, h, Shr(a / 2, k - 1));
    } else {
      OrZero(a);
    }
  }

  lemma OrOdd(a: nat, b: nat, half: nat)
    requires b == 2 * half + 1
    ensures Or(a, b) == 2 * Or(a / 2, half) + 1
  {
  }

  lemma OrEven(x: nat, half: nat, b: nat)
    requires x == 2 * half
    ensures Or(x, b) == 2 * Or(half, b / 2) + b % 2
  {
  }

  lemma {:induction false} OrZero(a: nat)
    ensures Or(a, 0) == a
  {
    if a > 0 { OrZero(a / 2); }
  }

  /** Masking with 2^k - 1 is reduction modulo 2^k. */
  lemma {:induction false} AndMask(a: nat, k: nat)
    ensures And(a, Pow2(k) - 1) == a % Pow2(k)
    decreases k
  {
    if k > 0 {
      var h := Pow2(k - 1);
      AndMask(a / 2, k - 1);
      AndOdd(a, 2 * h - 1, h - 1);
      HalfMod(a, h);
    } else {
      AndZero(a);
    }
  }

  lemma AndOdd(a: nat, b: nat, half: nat)
    requires b == 2 * half + 1
    ensures And(a, b) == 2 * And(a / 2, half) + a % 2
  {
  }

  lemma HalfMod(a: nat, h: nat)
    requires h > 0
    ensures a % (2 * h) == 2 * ((a / 2) % h) + a % 2
  {
    var q, r := (a / 2) / h, (a / 2) % h;
    MulAssociative(2, h, q);
    DivUnique(a, 2 * h, q, 2 * r + a % 2);
  }

  lemma {:induction false} AndZero(a: nat)
    ensures And(a, 0) == 0
  {
    if a > 0 { AndZero(a / 2); }
  }

  /** Every positive number has a bit length. */
  lemma {:induction false} BitLength(n: nat) returns (length: nat)
    requires n >= 1
    ensures length >= 1 && Pow2(length - 1) <= n < Pow2(length)
  {
    if n == 1 {
      length := 1;
    } else {
      var l := BitLength(n / 2);
      length := l + 1;
    }
  }

  /** n has `length` bits and at least its first w bits are ones. */
  ghost predicate Smeared(n: nat, length: nat, w: nat) {
    if w >= length then n == Pow2(length) - 1 else Shr(n, length - w) == Pow2(w) - 1
  }

  /** One step `n |= n >> w` doubles the run of leading ones. */
  lemma SmearStep(n: nat, length: nat, w: nat)
    requires w >= 1 && n < Pow2(length) && Smeared(n, length, w)
    ensures n <= Or(n, Shr(n, w)) < Pow2(length)
    ensures Smeared(Or(n, Shr(n, w)), length, 2 * w)
  {
    ShrAtMost(n, w);
    OrBounds(n, Shr(n, w), length);
    if w < length {
      var d := if 2 * w <= length then 2 * w else length;
      SmearedPrefix(n, length, w, d);
      if d == length {
        assert Shr(Or(n, Shr(n, w)), 0) == Or(n, Shr(n, w));
      }
    }
  }

  lemma SmearedPrefix(n: nat, length: nat, w: nat, d: nat)
    requires w < d <= length && d <= 2 * w && Shr(n, length - w) == Pow2(w) - 1
    ensures Shr(Or(n, Shr(n, w)), length - d) == Pow2(d) - 1
  {
    var rest, low := length - d, d - w;
    var a := Shr(n, rest);
    ShrOr(n, Shr(n, w), rest);
    ShrShr(n, w, rest);
    ShrShr(n, rest, w);
    ShrShr(n, rest, low);
    TopOfOnes(a, low, w);
    OrOnes(a, low);
    Pow2Add(low, w);
    Distribute(Pow2(low), Pow2(w), -1);
  }

  lemma {:induction false} ShrAtMost(n: nat, w: nat)
    ensures Shr(n, w) <= n
    decreases w
  {
    if w > 0 { ShrAtMost(n / 2, w - 1); }
  }

  lemma {:induction false} ShrOnes(low: nat, k: nat)
    ensures Shr(Pow2(low + k) - 1, k) == Pow2(low) - 1
    decreases k
  {
    if k > 0 {
      assert (Pow2(low + k) - 1) / 2 == Pow2(low + k - 1) - 1;
      ShrOnes(low, k - 1);
    }
  }

  /** If the first w bits of a (low + w)-bit number are ones and low <= w, its first `low` bits are ones. */
  lemma TopOfOnes(a: nat, low: nat, w: nat)
    requires low <= w && Shr(a, low) == Pow2(w) - 1
    ensures Shr(a, w) == Pow2(low) - 1
  {
    hide Shr, Pow2;
    ShrShr(a, low, w - low);
    ShrOnes(low, w - low);
  }
}

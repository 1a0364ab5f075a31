/** The two bit-smearing round-ups of the library: the 32-bit one of the executor, the 64-bit one of the deque. */
module PowerOfTwo {
  import opened Bits

  /** p is the least power of two that is at least n. */
  ghost predicate LeastPow2AtLeast(p: nat, n: nat) {
    IsPow2(p) && n <= p && forall k: nat :: n <= Pow2(k) ==> p <= Pow2(k)
  }

  ghost predicate FitsWord(n: nat, width: nat) {
    n < Pow2(width)
  }

  /** p is n rounded up where the word can hold that power of two, and 0 where it cannot. */
  ghost predicate RoundsUpInWord(p: nat, n: nat, width: nat)
    requires width >= 1
  {
    if n <= Pow2(width - 1) then LeastPow2AtLeast(p, n) else p == 0
  }

  /** `n + 1` in a word of `width` bits. */
  function Increment(n: nat, width: nat): nat {
    (n + 1) % Pow2(width)
  }

  lemma LeastFromLength(n: nat, length: nat)
    requires n >= 2 && length >= 1 && Pow2(length - 1) <= n - 1 < Pow2(length)
    ensures LeastPow2AtLeast(Pow2(length), n)
  {
    forall k: nat | n <= Pow2(k)
      ensures Pow2(length) <= Pow2(k)
    {
      if k < length { Pow2Monotone(k, length - 1); }
      Pow2Monotone(length, if k < length then length else k);
    }
  }

  /** Where the bit length of n - 1 puts the result, for a word of `width` bits. */
  lemma LengthInWord(n: nat, length: nat, width: nat)
    requires n >= 2 && length >= 1 && width >= 1 && Pow2(length - 1) <= n - 1 < Pow2(length)
    requires FitsWord(n, width)
    ensures length <= width
    ensures n <= Pow2(width - 1) <==> length < width
  {
    if length > width { Pow2Monotone(width, length - 1); }
    if length < width { Pow2Monotone(length, width - 1); }
  }

  lemma {:induction false} StartSmeared(n: nat, length: nat)
    requires length >= 1 && Pow2(length - 1) <= n < Pow2(length)
    ensures Smeared(n, length, 1)
  {
    if length > 1 { StartSmeared(n / 2, length - 1); }
  }

  /** The last step: Pow2(length) - 1 plus one, in a word of `width` bits. */
  lemma IncrementInWord(n: nat, v: nat, length: nat, width: nat)
    requires n >= 2 && length >= 1 && width >= 1 && Pow2(length - 1) <= n - 1 < Pow2(length)
    requires FitsWord(n, width) && Smeared(v, length, width)
    ensures RoundsUpInWord(Increment(v, width), n, width)
  {
    LengthInWord(n, length, width);
    assert v + 1 == Pow2(length);
    if length < width {
      Pow2StrictlyMonotone(length, width);
      LeastFromLength(n, length);
      DivUnique(v + 1, Pow2(width), 0, v + 1);
    } else {
      DivUnique(v + 1, Pow2(width), 1, 0);
    }
  }

  lemma LeastOfSmall(n: nat, width: nat)
    requires n <= 1 && width >= 1
    ensures RoundsUpInWord(1, n, width)
  {
    assert Pow2(0) == 1;
  }

  /** The statement `n |= n >> w`. */
  method Smear(n: nat, w: nat, ghost length: nat) returns (r: nat)
    requires w >= 1 && n < Pow2(length) && Smeared(n, length, w)
    ensures r == Or(n, Shr(n, w))
    ensures r < Pow2(length) && Smeared(r, length, 2 * w)
  {
    SmearStep(n, length, w);
    r := Or(n, Shr(n, w));
  }

  /** `next_pwr_of_2`: exact up to 2^31; beyond it the final increment wraps to 0. */
  method NextPwrOf2(n: nat) returns (p: nat)
    requires FitsWord(n, 32)
    ensures RoundsUpInWord(p, n, 32)
  {
    hide Pow2, Or, Shr, RoundsUpInWord, Increment;
    if n <= 1 {
      LeastOfSmall(n, 32);
      return 1;
    }
    var v := n - 1;
    ghost var length := BitLength(v);
    StartSmeared(v, length);
    LengthInWord(n, length, 32);
    v := Smear(v, 1, length);
    v := Smear(v, 2, length);
    v := Smear(v, 4, length);
    v := Smear(v, 8, length);
    v := Smear(v, 16, length);
    IncrementInWord(n, v, length, 32);
    p := Increment(v, 32);
  }

  /** `nextPowerOf2` of the deque, on 64-bit words. */
  method NextPowerOf2(n: nat) returns (p: nat)
    requires FitsWord(n, 64)
    ensures RoundsUpInWord(p, n, 64)
  {
    hide Pow2, Or, Shr, RoundsUpInWord, Increment;
    if n <= 1 {
      LeastOfSmall(n, 64);
      return 1;
    }
    var v := n - 1;
    ghost var length := BitLength(v);
    StartSmeared(v, length);
    LengthInWord(n, length, 64);
    v := Smear(v, 1, length);
    v := Smear(v, 2, length);
    v := Smear(v, 4, length);
    v := Smear(v, 8, length);
    v := Smear(v, 16, length);
    v := Smear(v, 32, length);
    IncrementInWord(n, v, length, 64);
    p := Increment(v, 64);
  }
}

/** How `TaskExecutor` spreads loads over its queues and how an idle worker scans the others. */
module RoundRobin {
  import opened Bits

  /** Queue chosen by the i-th call of `load`: the 32-bit counter before its increment, masked. */
  function QueueOfLoad(i: nat, queues: nat): nat
    requires queues >= 1
  {
    And(i % Pow2(32), queues - 1)
  }

  /** How many of the first n loads went to queue q. */
  function Loads(n: nat, q: nat, queues: nat): nat
    requires queues >= 1
  {
    if n == 0 then 0 else Loads(n - 1, q, queues) + (if QueueOfLoad(n - 1, queues) == q then 1 else 0)
  }

  /** The masked wrapping counter is the true load number modulo the number of queues, across the 2^32 wrap. */
  lemma MaskedCounter(i: nat, k: nat)
    requires k <= 31
    ensures QueueOfLoad(i, Pow2(k)) == i % Pow2(k)
  {
    AndMask(i % Pow2(32), k);
    Pow2Add(k, 32 - k);
    ModOfMod(i, Pow2(k), Pow2(32 - k));
  }

  lemma ModOfMod(i: nat, m: nat, d: nat)
    requires m > 0 && d > 0
    ensures m * d > 0 && (i % (m * d)) % m == i % m
  {
    MulPositive(m, d);
    var q, r := i / (m * d), i % (m * d);
    var q2, r2 := r / m, r % m;
    calc {
      i;
      (m * d) * q + r;
      { MulAssociative(m, d, q); }
      m * (d * q) + (m * q2 + r2);
      { Distribute(m, d * q, q2); }
      m * (d * q + q2) + r2;
    }
    DivUnique(i, m, d * q + q2, r2);
  }

  lemma {:induction false} LoadsExactly(n: nat, q: nat, k: nat)
    requires k <= 31 && q < Pow2(k)
    ensures Loads(n, q, Pow2(k)) == n / Pow2(k) + (if q < n % Pow2(k) then 1 else 0)
  {
    hide Pow2, QueueOfLoad;
    if n == 0 {
      DivUnique(0, Pow2(k), 0, 0);
    } else {
      LoadsExactly(n - 1, q, k);
      MaskedCounter(n - 1, k);
      NextQuotient(n - 1, Pow2(k));
    }
  }

  lemma NextQuotient(i: nat, m: nat)
    requires m > 0
    ensures if i % m + 1 < m then (i + 1) / m == i / m && (i + 1) % m == i % m + 1
                             else (i + 1) / m == i / m + 1 && (i + 1) % m == 0
  {
    var d, r := i / m, i % m;
    if r + 1 < m {
      DivUnique(i + 1, m, d, r + 1);
    } else {
      Distribute(m, d, 1);
      DivUnique(i + 1, m, d + 1, 0);
    }
  }

  /** Perfect round robin: after any number of loads no queue is ahead of another by more than one. */
  lemma PerfectRoundRobin(n: nat, q1: nat, q2: nat, queues: nat)
    requires IsPow2(queues) && queues <= Pow2(31) && q1 < queues && q2 < queues
    ensures Loads(n, q1, queues) <= Loads(n, q2, queues) + 1
  {
    var k: nat :| queues == Pow2(k);
    if k > 31 { Pow2StrictlyMonotone(31, k); }
    LoadsExactly(n, q1, k);
    LoadsExactly(n, q2, k);
  }

  /** The queue a worker tries at the i-th step of its steal scan. */
  function ScanTarget(index: nat, i: nat, queues: nat): nat
    requires queues >= 1
  {
    (index + i) % queues
  }

  /** The scan 1 .. queues-1 visits every other queue exactly once and never its own. */
  lemma ScanVisitsEachOtherQueueOnce(index: nat, queues: nat, q: nat)
    requires index < queues && q < queues
    ensures q == index ==> forall i :: 1 <= i < queues ==> ScanTarget(index, i, queues) != q
    ensures q != index ==> exists i :: 1 <= i < queues && ScanTarget(index, i, queues) == q
                             && forall j :: 1 <= j < queues && ScanTarget(index, j, queues) == q ==> j == i
  {
    forall i | 1 <= i < queues
      ensures ScanTarget(index, i, queues) == if index + i < queues then index + i else index + i - queues
    {
      if index + i < queues {
        DivUnique(index + i, queues, 0, index + i);
      } else {
        DivUnique(index + i, queues, 1, index + i - queues);
      }
    }
    if q != index {
      var i := if q > index then q - index else q + queues - index;
      assert 1 <= i < queues && ScanTarget(index, i, queues) == q;
    }
  }
}

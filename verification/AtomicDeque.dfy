/** The specification object: a deque whose operations take effect at one instant between call and return. */
module AtomicDeque {
  import opened Counting
  import opened Wrappers
  import opened DequeMachine

  /** How far a thread's current operation has come. */
  datatype Op<T> =
    | Resting
    | Pushing(item: T)
    | Pushed
    | Popping
    | Popped(result: Option<T>)
    | Stealing
    | Stolen(result: Option<T>)

  datatype Deque<T> = Deque(contents: seq<T>, owner: Op<T>, thieves: seq<Op<T>>)

  /** Push-back and pop-back by the owner; a pop may fail only on an empty deque. */
  ghost predicate OwnerTakesEffect<T>(d: Deque<T>, d': Deque<T>) {
    match d.owner
    case Pushing(item) => d' == d.(contents := d.contents + [item], owner := Pushed)
    case Popping =>
      var n := |d.contents|;
      if n == 0 then d' == d.(owner := Popped(None))
      else d' == d.(contents := d.contents[..n - 1], owner := Popped(Some(d.contents[n - 1])))
    case _ => false
  }

  /** Steal-front by a thief; a steal may fail spuriously. */
  ghost predicate ThiefTakesEffect<T>(d: Deque<T>, i: nat, d': Deque<T>)
    requires i < |d.thieves|
  {
    && d.thieves[i].Stealing?
    && (|| d' == d.(thieves := d.thieves[i := Stolen(None)])
        || (|d.contents| > 0
            && d' == d.(contents := d.contents[1..], thieves := d.thieves[i := Stolen(Some(d.contents[0]))])))
  }

  /** One step of the specification; a label that is neither a call nor a return may also change nothing. */
  ghost predicate AtomicNext<T>(d: Deque<T>, l: Label<T>, d': Deque<T>) {
    match l
    case CallPush(item) => d.owner.Resting? && d' == d.(owner := Pushing(item))
    case ReturnPush => d.owner.Pushed? && d' == d.(owner := Resting)
    case CallPop => d.owner.Resting? && d' == d.(owner := Popping)
    case ReturnPop(result) => d.owner == Popped(result) && d' == d.(owner := Resting)
    case CallSteal(i) => i < |d.thieves| && d.thieves[i].Resting? && d' == d.(thieves := d.thieves[i := Stealing])
    case ReturnSteal(i, result) =>
      i < |d.thieves| && d.thieves[i] == Stolen(result) && d' == d.(thieves := d.thieves[i := Resting])
    case ThiefStep(i) => d' == d || (i < |d.thieves| && ThiefTakesEffect(d, i, d'))
    case _ => d' == d || OwnerTakesEffect(d, d')
  }

  /** How often the label hands x to the deque. */
  function Given<T(==)>(l: Label<T>, x: T): nat {
    if l.CallPush? then Times(l.item, x) else 0
  }

  /** How often the label hands x back to a caller. */
  function Taken<T(==)>(l: Label<T>, x: T): nat {
    match l
    case ReturnPop(Some(v)) => Times(v, x)
    case ReturnSteal(_, Some(v)) => Times(v, x)
    case _ => 0
  }

  /** Whether an operation in progress holds x: called but not yet in the deque, or out of it but not yet returned. */
  function HeldBy<T(==)>(op: Op<T>, x: T): nat {
    match op
    case Pushing(item) => Times(item, x)
    case Popped(Some(v)) => Times(v, x)
    case Stolen(Some(v)) => Times(v, x)
    case _ => 0
  }

  function HeldByAll<T(==)>(ops: seq<Op<T>>, x: T): nat {
    if ops == [] then 0 else HeldByAll(ops[..|ops| - 1], x) + HeldBy(ops[|ops| - 1], x)
  }

  /** How often x is inside: in the contents or held by an operation in progress. */
  function Inside<T(==)>(d: Deque<T>, x: T): nat {
    Count(d.contents, x) + HeldBy(d.owner, x) + HeldByAll(d.thieves, x)
  }

  lemma {:induction false} HeldByAllUpdate<T>(ops: seq<Op<T>>, i: nat, op: Op<T>, x: T)
    requires i < |ops|
    ensures HeldByAll(ops[i := op], x) + HeldBy(ops[i], x) == HeldByAll(ops, x) + HeldBy(op, x)
  {
    var n := |ops| - 1;
    if i < n {
      HeldByAllUpdate(ops[..n], i, op, x);
      assert ops[i := op][..n] == ops[..n][i := op];
    } else {
      assert ops[i := op][..n] == ops[..n];
    }
  }

  lemma {:induction false} AllRestingHoldNothing<T>(ops: seq<Op<T>>, x: T)
    requires forall i :: 0 <= i < |ops| ==> ops[i].Resting?
    ensures HeldByAll(ops, x) == 0
  {
    if ops != [] { AllRestingHoldNothing(ops[..|ops| - 1], x); }
  }

  /** No step creates, copies or loses an item. */
  lemma AtomicStepConserves<T>(d: Deque<T>, l: Label<T>, d': Deque<T>, x: T)
    requires AtomicNext(d, l, d')
    ensures Inside(d, x) + Given(l, x) == Inside(d', x) + Taken(l, x)
  {
    if l.CallSteal? {
      HeldByAllUpdate(d.thieves, l.thief, Stealing, x);
    } else if l.ReturnSteal? {
      HeldByAllUpdate(d.thieves, l.thief, Resting, x);
    } else if l.ThiefStep? {
      if d' != d {
        HeldByAllUpdate(d.thieves, l.thief, d'.thieves[l.thief], x);
        if |d.contents| > 0 { CountFront(d.contents, x); }
      }
    } else if l.OwnerStep? || l.OwnerAllocates? || l.OwnerSpuriousCas? {
      if d' != d && d.owner.Pushing? {
        assert d'.contents[..|d.contents|] == d.contents;
      }
    }
  }
}

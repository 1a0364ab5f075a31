/** Every interleaving of the Chase-Lev steps refines the atomic deque. */
module DequeProof {
  import opened Wrappers
  import opened Bits
  import opened Counting
  import opened DequeMachine
  import A = AtomicDeque

  /** One past the last index that still belongs to the deque: a pop that has lowered `_bottom` but not yet taken effect still owns that slot. */
  function LiveEnd<T>(s: State<T>): nat {
    match s.owner
    case PopStored(b, _) => b + 1
    case PopGotTop(b, _, t) => if t == b then b + 1 else s.bottom
    case PopLast(b, _, _) => b + 1
    case PopRestore(b, _) => b + 1
    case _ => s.bottom
  }

  function Live<T>(cells: seq<T>, from: nat, end: nat): (r: seq<T>)
    requires |cells| > 0 && from <= end
    ensures |r| == end - from
  {
    seq(end - from, k requires 0 <= k < end - from => Get(cells, from + k))
  }

  function Contents<T>(s: State<T>): seq<T>
    requires s.current < |s.arrays| && |Current(s)| > 0 && s.top <= LiveEnd(s)
  {
    Live(Current(s), s.top, LiveEnd(s))
  }

  function OwnerOp<T>(s: State<T>): A.Op<T>
    requires s.owner.PopGotTop? ==> s.owner.a < |s.arrays| && |s.arrays[s.owner.a]| > 0
  {
    match s.owner
    case Idle => A.Resting
    case PushCalled(item) => A.Pushing(item)
    case PushGotBottom(item, _) => A.Pushing(item)
    case PushGotTop(item, _, _) => A.Pushing(item)
    case PushGotArray(item, _, _, _) => A.Pushing(item)
    case PushResized(item, _, _, _) => A.Pushing(item)
    case PushPublished(item, _, _, _) => A.Pushing(item)
    case PushReady(item, _, _, _) => A.Pushing(item)
    case PushStored(item, _, _) => A.Pushing(item)
    case PushMeasure(_) => A.Pushed
    case PushRaiseMax(_, _) => A.Pushed
    case PushDone => A.Pushed
    case PopCalled => A.Popping
    case PopGotBottom(_) => A.Popping
    case PopGotArray(_, _) => A.Popping
    case PopStored(_, _) => A.Popping
    case PopGotTop(b, a, t) => if t == b then A.Popping else A.Popped(Some(Get(s.arrays[a], b)))
    case PopLast(_, _, _) => A.Popping
    case PopRestore(_, result) => A.Popped(result)
    case PopDone(result) => A.Popped(result)
  }

  function ThiefOp<T>(p: ThiefPc<T>): A.Op<T> {
    match p
    case Away => A.Resting
    case StealDone(result) => A.Stolen(result)
    case _ => A.Stealing
  }

  function ThiefOps<T>(ps: seq<ThiefPc<T>>): (r: seq<A.Op<T>>)
    ensures |r| == |ps| && forall i :: 0 <= i < |ps| ==> r[i] == ThiefOp(ps[i])
  {
    seq(|ps|, i requires 0 <= i < |ps| => ThiefOp(ps[i]))
  }

  /** Resizes whose array is published, counting one not yet added to the counter. */
  function Resizes<T>(s: State<T>): nat {
    s.resizeCount + if s.owner.PushPublished? then 1 else 0
  }

  /** The size the push in progress has reached or will report to `_maxSize`. */
  function PendingSize<T>(s: State<T>): nat {
    match s.owner
    case PushPublished(_, b, t, _) => if t <= b then b - t + 1 else 0
    case PushReady(_, b, t, _) => if t <= b then b - t + 1 else 0
    case PushStored(_, b, t) => if t <= b then b - t + 1 else 0
    case PushMeasure(size) => size
    case PushRaiseMax(size, _) => size
    case _ => 0
  }

  ghost predicate SpaceOk<T>(s: State<T>)
    requires s.current < |s.arrays|
  {
    var capacity := |Current(s)|;
    && IsPow2(s.initial)
    && capacity == s.initial * Pow2(Resizes(s))
    && (Resizes(s) == 0 || 3 * capacity <= 8 * s.maxSize || 3 * capacity <= 8 * PendingSize(s))
  }

  ghost predicate Shape<T>(s: State<T>) {
    && Allocated(s)
    && s.top <= LiveEnd(s) <= s.pushes <= SIZE_MAX
    && (s.pushes >= 1 ==> LiveEnd(s) >= 1)
    && LiveEnd(s) - s.top <= Threshold(|Current(s)|)
    && SpaceOk(s)
  }

  ghost predicate PushBounds<T>(s: State<T>, b: nat, t: nat) {
    b == s.bottom && t <= s.top <= b && s.pushes < SIZE_MAX
  }

  ghost predicate SameFrom<T>(x: seq<T>, y: seq<T>, from: nat, end: nat)
    requires |x| > 0 && |y| > 0
  {
    forall i: nat :: from <= i < end ==> Get(x, i) == Get(y, i)
  }

  ghost predicate OwnerOk<T>(s: State<T>)
    requires Shape(s)
  {
    var limit := Threshold(|Current(s)|);
    match s.owner
    case Idle => true
    case PushCalled(_) => s.pushes < SIZE_MAX
    case PushGotBottom(_, b) => b == s.bottom && s.pushes < SIZE_MAX
    case PushGotTop(_, b, t) => PushBounds(s, b, t) && b - t <= limit
    case PushGotArray(_, b, t, a) => PushBounds(s, b, t) && b - t <= limit && a == s.current
    case PushResized(_, b, t, a) =>
      && PushBounds(s, b, t) && b - t == limit
      && a < |s.arrays| && a != s.current && |s.arrays[a]| == 2 * |Current(s)|
      && SameFrom(s.arrays[a], Current(s), t, b)
    case PushPublished(_, b, t, a) => PushBounds(s, b, t) && b - t + 1 <= limit && a == s.current
    case PushReady(_, b, t, a) => PushBounds(s, b, t) && b - t + 1 <= limit && a == s.current
    case PushStored(item, b, t) => PushBounds(s, b, t) && b - t + 1 <= limit && Get(Current(s), b) == item
    case PushMeasure(size) => true
    case PushRaiseMax(size, seen) => seen == s.maxSize
    case PushDone => true
    case PopCalled => s.pushes >= 1
    case PopGotBottom(b) => b + 1 == s.bottom
    case PopGotArray(b, a) => b + 1 == s.bottom && a == s.current
    case PopStored(b, a) => b == s.bottom && a == s.current
    case PopGotTop(b, a, t) => b == s.bottom && a == s.current && t <= b && t <= s.top
    case PopLast(b, t, v) => b == s.bottom && t == b && t <= s.top && v == Get(Current(s), b)
    case PopRestore(b, result) => b == s.bottom && s.top == b + 1
    case PopDone(_) => true
  }

  ghost predicate TopIsLive<T>(s: State<T>) {
    s.top < LiveEnd(s)
  }

  /** A thief whose CAS can still succeed has seen a live slot and holds its current item. */
  ghost predicate ThiefOk<T>(s: State<T>, p: ThiefPc<T>)
    requires Shape(s)
  {
    match p
    case StealGotTop(t) => t <= s.top
    case StealGotBottom(t) => t <= s.top && (t == s.top ==> TopIsLive(s))
    case StealGotArray(t, a) =>
      && t <= s.top && a < |s.arrays|
      && (t == s.top ==> TopIsLive(s) && Get(s.arrays[a], t) == Get(Current(s), t))
    case StealGotItem(t, v) =>
      && t <= s.top
      && (t == s.top ==> TopIsLive(s) && v == Get(Current(s), t))
    case _ => true
  }

  ghost predicate Inv<T>(s: State<T>) {
    && Shape(s)
    && OwnerOk(s)
    && forall i :: 0 <= i < |s.thieves| ==> ThiefOk(s, s.thieves[i])
  }

  function Abstract<T>(s: State<T>): A.Deque<T>
    requires Inv(s)
  {
    A.Deque(Contents(s), OwnerOp(s), ThiefOps(s.thieves))
  }

  // ---------- what thieves need the owner to leave alone ----------

  /** The slot at `_top` keeps its item in every array, as long as it is live. */
  ghost predicate TopSlotKept<T>(s: State<T>, s': State<T>)
    requires Shape(s) && Shape(s')
  {
    && s'.top == s.top
    && |s.arrays| <= |s'.arrays|
    && (TopIsLive(s) ==>
          && TopIsLive(s')
          && Get(Current(s'), s.top) == Get(Current(s), s.top)
          && forall k :: 0 <= k < |s.arrays| ==> Get(s'.arrays[k], s.top) == Get(s.arrays[k], s.top))
  }

  lemma ThievesUnharmed<T>(s: State<T>, s': State<T>)
    requires Inv(s) && Shape(s') && s'.thieves == s.thieves
    requires TopSlotKept(s, s') || (s.top < s'.top && |s.arrays| <= |s'.arrays|)
    ensures forall i :: 0 <= i < |s'.thieves| ==> ThiefOk(s', s'.thieves[i])
  {
    forall i | 0 <= i < |s'.thieves|
      ensures ThiefOk(s', s'.thieves[i])
    {
      assert ThiefOk(s, s.thieves[i]);
    }
  }

  // ---------- arithmetic of the circular buffer ----------

  /** Two indices less than one round apart use different slots. */
  lemma DistinctSlots(i: nat, j: nat, n: nat)
    requires n > 0 && i < j < i + n
    ensures i % n != j % n
  {
    var qi, qj := i / n, j / n;
    if i % n == j % n {
      assert n * (qj - qi) == j - i by { Distribute(n, qj, -qi); }
      if qj - qi >= 1 { MulMonotone(n, 1, qj - qi); } else { MulMonotone(n, qj - qi, 0); }
    }
  }

  lemma PutKeepsOthers<T>(cells: seq<T>, b: nat, item: T, i: nat)
    requires |cells| > 0 && i < b < i + |cells|
    ensures Get(Put(cells, b, item), i) == Get(cells, i)
  {
    DistinctSlots(i, b, |cells|);
  }

  lemma {:induction false} CopyKeepsCopied<T>(source: seq<T>, target: seq<T>, i: nat, bottom: nat, j: nat)
    requires |source| > 0 && |target| > 0 && j < i && bottom <= j + |target|
    ensures Get(CopyLoop(source, target, i, bottom), j) == Get(target, j)
    decreases bottom - i
  {
    if i < bottom {
      PutKeepsOthers(target, i, Get(source, i), j);
      CopyKeepsCopied(source, Put(target, i, Get(source, i)), i + 1, bottom, j);
    }
  }

  /** The copy loop puts every index of the range at its place in the new, larger array. */
  lemma {:induction false} CopyLoopCopies<T>(source: seq<T>, target: seq<T>, top: nat, bottom: nat)
    requires |source| > 0 && |target| > 0 && bottom <= top + |target|
    ensures SameFrom(CopyLoop(source, target, top, bottom), source, top, bottom)
    decreases bottom - top
  {
    if top < bottom {
      var next := Put(target, top, Get(source, top));
      CopyLoopCopies(source, next, top + 1, bottom);
      CopyKeepsCopied(source, next, top + 1, bottom, top);
    }
  }

  lemma LiveEqual<T>(x: seq<T>, y: seq<T>, from: nat, end: nat)
    requires |x| > 0 && |y| > 0 && from <= end && SameFrom(x, y, from, end)
    ensures Live(x, from, end) == Live(y, from, end)
  {
  }

  lemma LiveGrow<T>(x: seq<T>, from: nat, end: nat)
    requires |x| > 0 && from <= end
    ensures Live(x, from, end + 1) == Live(x, from, end) + [Get(x, end)]
  {
  }

  lemma LiveDropFirst<T>(x: seq<T>, from: nat, end: nat)
    requires |x| > 0 && from < end
    ensures Live(x, from, end) == [Get(x, from)] + Live(x, from + 1, end)
  {
  }

  // ---------- the owner's steps ----------

  /** What every owner step is shown to do. */
  ghost predicate OwnerGood<T>(s: State<T>, l: Label<T>, s': State<T>)
    requires Inv(s)
  {
    && Shape(s') && OwnerOk(s')
    && s'.thieves == s.thieves
    && (TopSlotKept(s, s') || (s.top < s'.top && |s.arrays| <= |s'.arrays|))
    && A.AtomicNext(Abstract(s), l, A.Deque(Contents(s'), OwnerOp(s'), ThiefOps(s'.thieves)))
  }

  lemma OwnerCalls<T>(s: State<T>, l: Label<T>, s': State<T>)
    requires Inv(s) && OwnerNext(s, l, s') && CallAllowed(s, l)
    requires s.owner.Idle? || s.owner.PushDone? || s.owner.PopDone?
    ensures OwnerGood(s, l, s')
  {
    hide Pow2, IsPow2, Threshold;
  }

  lemma PushReads<T>(s: State<T>, l: Label<T>, s': State<T>)
    requires Inv(s) && OwnerNext(s, l, s')
    requires s.owner.PushCalled? || s.owner.PushGotBottom? || s.owner.PushGotTop?
    ensures OwnerGood(s, l, s')
  {
    hide Pow2, IsPow2, Threshold;
  }

  lemma PushDecides<T>(s: State<T>, l: Label<T>, s': State<T>)
    requires Inv(s) && OwnerNext(s, l, s') && s.owner.PushGotArray?
    ensures OwnerGood(s, l, s')
  {
    var PushGotArray(item, b, t, a) := s.owner;
    if s'.owner.PushResized? {
      assert Threshold(|Current(s)|) <= |Current(s)|;
      CopyLoopCopies(Current(s), l.junk, t, b);
      assert forall k :: 0 <= k < |s.arrays| ==> s'.arrays[k] == s.arrays[k];
    }
  }

  lemma SpaceAfterDoubling(size: nat, capacity: nat)
    requires size >= Threshold(capacity) + 1
    ensures 3 * (2 * capacity) <= 8 * size
  {
  }

  lemma CapacityDoubles(initial: nat, resizes: nat)
    ensures initial * Pow2(resizes + 1) == 2 * (initial * Pow2(resizes))
  {
    MulAssociative(initial, 2, Pow2(resizes));
  }

  lemma PushPublishes<T>(s: State<T>, l: Label<T>, s': State<T>)
    requires Inv(s) && OwnerNext(s, l, s') && s.owner.PushResized?
    ensures OwnerGood(s, l, s')
  {
    hide Pow2, IsPow2;
    var PushResized(item, b, t, a) := s.owner;
    SpaceAfterDoubling(b - t + 1, |Current(s)|);
    CapacityDoubles(s.initial, s.resizeCount);
    assert SameFrom(Current(s'), Current(s), s.top, b);
    LiveEqual(Current(s'), Current(s), s.top, b);
  }

  lemma PushCounts<T>(s: State<T>, l: Label<T>, s': State<T>)
    requires Inv(s) && OwnerNext(s, l, s') && s.owner.PushPublished?
    ensures OwnerGood(s, l, s')
  {
    hide Pow2, IsPow2;
  }

  lemma PushWritesSlot<T>(s: State<T>, l: Label<T>, s': State<T>)
    requires Inv(s) && OwnerNext(s, l, s') && s.owner.PushReady?
    ensures OwnerGood(s, l, s')
  {
    var PushReady(item, b, t, a) := s.owner;
    assert Threshold(|Current(s)|) <= |Current(s)|;
    forall i: nat | s.top <= i < b
      ensures Get(Current(s'), i) == Get(Current(s), i)
    {
      PutKeepsOthers(Current(s), b, item, i);
    }
    LiveEqual(Current(s'), Current(s), s.top, b);
  }

  lemma PushTakesEffect<T>(s: State<T>, l: Label<T>, s': State<T>)
    requires Inv(s) && OwnerNext(s, l, s') && s.owner.PushStored?
    ensures OwnerGood(s, l, s')
  {
    hide Pow2, IsPow2;
    LiveGrow(Current(s), s.top, s.bottom);
  }

  lemma PushTracksMaximum<T>(s: State<T>, l: Label<T>, s': State<T>)
    requires Inv(s) && OwnerNext(s, l, s') && (s.owner.PushMeasure? || s.owner.PushRaiseMax?)
    ensures OwnerGood(s, l, s')
  {
    hide Pow2, IsPow2, Threshold;
  }

  lemma PopLowersBottom<T>(s: State<T>, l: Label<T>, s': State<T>)
    requires Inv(s) && OwnerNext(s, l, s')
    requires s.owner.PopCalled? || s.owner.PopGotBottom? || s.owner.PopGotArray?
    ensures OwnerGood(s, l, s')
  {
    hide Pow2, IsPow2;
  }

  /** Reading `_top` decides the pop: with more than one item it takes effect here, with none it fails here. */
  lemma PopReadsTop<T>(s: State<T>, l: Label<T>, s': State<T>)
    requires Inv(s) && OwnerNext(s, l, s') && s.owner.PopStored?
    ensures OwnerGood(s, l, s')
  {
    hide Pow2, IsPow2, Threshold;
    if s.top < s.bottom { LiveGrow(Current(s), s.top, s.bottom); }
  }

  lemma PopReadsItem<T>(s: State<T>, l: Label<T>, s': State<T>)
    requires Inv(s) && OwnerNext(s, l, s') && s.owner.PopGotTop?
    ensures OwnerGood(s, l, s')
  {
    hide Pow2, IsPow2, Threshold;
  }

  lemma PopRacesForLast<T>(s: State<T>, l: Label<T>, s': State<T>)
    requires Inv(s) && OwnerNext(s, l, s') && s.owner.PopLast?
    ensures OwnerGood(s, l, s')
  {
    hide Pow2, IsPow2, Threshold;
  }

  lemma PopRestores<T>(s: State<T>, l: Label<T>, s': State<T>)
    requires Inv(s) && OwnerNext(s, l, s') && s.owner.PopRestore?
    ensures OwnerGood(s, l, s')
  {
    hide Pow2, IsPow2, Threshold;
  }

  lemma OwnerSteps<T>(s: State<T>, l: Label<T>, s': State<T>)
    requires Inv(s) && OwnerNext(s, l, s') && CallAllowed(s, l)
    ensures OwnerGood(s, l, s')
  {
    match s.owner
    case PushGotArray(_, _, _, _) => PushDecides(s, l, s');
    case PushResized(_, _, _, _) => PushPublishes(s, l, s');
    case PushPublished(_, _, _, _) => PushCounts(s, l, s');
    case PushReady(_, _, _, _) => PushWritesSlot(s, l, s');
    case PushStored(_, _, _) => PushTakesEffect(s, l, s');
    case PushMeasure(_) => PushTracksMaximum(s, l, s');
    case PushRaiseMax(_, _) => PushTracksMaximum(s, l, s');
    case PopCalled => PopLowersBottom(s, l, s');
    case PopGotBottom(_) => PopLowersBottom(s, l, s');
    case PopGotArray(_, _) => PopLowersBottom(s, l, s');
    case PopStored(_, _) => PopReadsTop(s, l, s');
    case PopGotTop(_, _, _) => PopReadsItem(s, l, s');
    case PopLast(_, _, _) => PopRacesForLast(s, l, s');
    case PopRestore(_, _) => PopRestores(s, l, s');
    case PushCalled(_) => PushReads(s, l, s');
    case PushGotBottom(_, _) => PushReads(s, l, s');
    case PushGotTop(_, _, _) => PushReads(s, l, s');
    case Idle => OwnerCalls(s, l, s');
    case PushDone => OwnerCalls(s, l, s');
    case PopDone(_) => OwnerCalls(s, l, s');
  }

  // ---------- the thieves' steps ----------

  /** Advancing `_top` over a live slot disturbs neither the owner nor the other thieves. */
  lemma TopAdvances<T>(s: State<T>, i: nat, p: ThiefPc<T>)
    requires Inv(s) && i < |s.thieves| && TopIsLive(s) && p.StealDone?
    ensures Inv(s.(top := s.top + 1, thieves := s.thieves[i := p]))
  {
    var s' := s.(top := s.top + 1, thieves := s.thieves[i := p]);
    assert Shape(s') && OwnerOk(s');
    forall j | 0 <= j < |s'.thieves|
      ensures ThiefOk(s', s'.thieves[j])
    {
      assert ThiefOk(s, s.thieves[j]);
    }
  }

  /** A steal whose CAS wins removes exactly the item at the front. */
  lemma StealWins<T>(s: State<T>, i: nat, l: Label<T>, s': State<T>)
    requires Inv(s) && i < |s.thieves| && ThiefNext(s, i, l, s')
    requires s.thieves[i].StealGotItem? && s.top == s.thieves[i].t
    ensures Inv(s') && A.AtomicNext(Abstract(s), l, Abstract(s'))
  {
    hide Pow2, IsPow2;
    var v := s.thieves[i].v;
    assert ThiefOk(s, s.thieves[i]);
    TopAdvances(s, i, StealDone(Some(v)));
    LiveDropFirst(Current(s), s.top, LiveEnd(s));
    StealTakesEffect(Abstract(s), i, Abstract(s'), v);
  }

  lemma StealTakesEffect<T>(d: A.Deque<T>, i: nat, d': A.Deque<T>, v: T)
    requires i < |d.thieves| && d.thieves[i].Stealing? && d.owner == d'.owner
    requires d.contents == [v] + d'.contents && d'.thieves == d.thieves[i := A.Stolen(Some(v))]
    ensures A.ThiefTakesEffect(d, i, d')
  {
  }

  /** What the owner relies on does not mention the thieves. */
  lemma ThievesAside<T>(s: State<T>, ps: seq<ThiefPc<T>>)
    requires Shape(s) && OwnerOk(s)
    ensures Shape(s.(thieves := ps)) && OwnerOk(s.(thieves := ps))
    ensures Contents(s.(thieves := ps)) == Contents(s)
    ensures OwnerOp(s.(thieves := ps)) == OwnerOp(s)
  {
    hide Pow2, IsPow2, Threshold;
  }

  lemma ThiefOkAside<T>(s: State<T>, ps: seq<ThiefPc<T>>, p: ThiefPc<T>)
    requires Shape(s) && Shape(s.(thieves := ps)) && ThiefOk(s, p)
    ensures ThiefOk(s.(thieves := ps), p)
  {
    hide SpaceOk, Threshold, Pow2, IsPow2;
  }

  /** A thief's local step leaves everything else as it was. */
  lemma ThiefMoves<T>(s: State<T>, i: nat, p: ThiefPc<T>)
    requires Inv(s) && i < |s.thieves| && ThiefOk(s, p)
    ensures Inv(s.(thieves := s.thieves[i := p]))
    ensures Abstract(s.(thieves := s.thieves[i := p])) == Abstract(s).(thieves := Abstract(s).thieves[i := ThiefOp(p)])
  {
    hide Shape, OwnerOk, ThiefOk, Contents, OwnerOp;
    var ps := s.thieves[i := p];
    ThievesAside(s, ps);
    forall j | 0 <= j < |ps|
      ensures ThiefOk(s.(thieves := ps), ps[j])
    {
      ThiefOkAside(s, ps, ps[j]);
    }
    assert ThiefOps(ps) == ThiefOps(s.thieves)[i := ThiefOp(p)];
  }

  /** Where a step that takes nothing leads the thief. */
  lemma StealStepIsLocal<T>(s: State<T>, i: nat, l: Label<T>, s': State<T>)
    requires Inv(s) && i < |s.thieves| && ThiefNext(s, i, l, s')
    requires !(s.thieves[i].StealGotItem? && s.top == s.thieves[i].t)
    ensures i < |s'.thieves| && s' == s.(thieves := s.thieves[i := s'.thieves[i]])
    ensures ThiefOk(s, s'.thieves[i])
  {
    hide SpaceOk, Threshold, Pow2, IsPow2;
    assert ThiefOk(s, s.thieves[i]);
  }

  lemma StealOtherSteps<T>(s: State<T>, i: nat, l: Label<T>, s': State<T>)
    requires Inv(s) && i < |s.thieves| && ThiefNext(s, i, l, s')
    requires !(s.thieves[i].StealGotItem? && s.top == s.thieves[i].t)
    ensures Inv(s') && A.AtomicNext(Abstract(s), l, Abstract(s'))
  {
    hide Shape, OwnerOk, ThiefOk, Contents, OwnerOp;
    StealStepIsLocal(s, i, l, s');
    var p := s'.thieves[i];
    ThiefMoves(s, i, p);
    if ThiefOp(p) == ThiefOp(s.thieves[i]) {
      assert Abstract(s').thieves == Abstract(s).thieves;
    }
  }

  // ---------- every step, every run ----------

  /** Forward simulation: each step keeps the invariant and is one step of the atomic deque, or changes nothing there. */
  lemma StepRefines<T>(s: State<T>, l: Label<T>, s': State<T>)
    requires Inv(s) && Next(s, l, s') && CallAllowed(s, l)
    ensures Inv(s')
    ensures A.AtomicNext(Abstract(s), l, Abstract(s'))
  {
    if OwnerNext(s, l, s') {
      OwnerSteps(s, l, s');
      ThievesUnharmed(s, s');
    } else {
      var i :| 0 <= i < |s.thieves| && ThiefNext(s, i, l, s');
      if s.thieves[i].StealGotItem? && s.top == s.thieves[i].t {
        StealWins(s, i, l, s');
      } else {
        StealOtherSteps(s, i, l, s');
      }
    }
  }

  /** A run: states joined by steps from a new deque, respecting what callers must. */
  ghost predicate Run<T>(states: seq<State<T>>, labels: seq<Label<T>>) {
    && |states| == |labels| + 1
    && Init(states[0])
    && forall k :: 0 <= k < |labels| ==>
        Allocated(states[k]) && Next(states[k], labels[k], states[k + 1]) && CallAllowed(states[k], labels[k])
  }

  lemma InitInv<T>(s: State<T>)
    requires Init(s)
    ensures Inv(s)
    ensures Abstract(s).contents == [] && Abstract(s).owner == A.Resting
    ensures forall i :: 0 <= i < |Abstract(s).thieves| ==> Abstract(s).thieves[i] == A.Resting
  {
    assert Pow2(0) == 1;
  }

  lemma {:induction false} RunInv<T>(states: seq<State<T>>, labels: seq<Label<T>>, k: nat)
    requires Run(states, labels) && k < |states|
    ensures Inv(states[k])
  {
    if k == 0 {
      InitInv(states[0]);
    } else {
      RunInv(states, labels, k - 1);
      StepRefines(states[k - 1], labels[k - 1], states[k]);
    }
  }

  /** Linearizability: the image of every run is a run of the atomic deque with the same calls and returns. */
  lemma EveryRunRefines<T>(states: seq<State<T>>, labels: seq<Label<T>>)
    requires Run(states, labels)
    ensures forall k :: 0 <= k < |states| ==> Inv(states[k])
    ensures Abstract(states[0]).contents == [] && Abstract(states[0]).owner == A.Resting
    ensures forall i :: 0 <= i < |Abstract(states[0]).thieves| ==> Abstract(states[0]).thieves[i] == A.Resting
    ensures forall k :: 0 <= k < |labels| ==> A.AtomicNext(Abstract(states[k]), labels[k], Abstract(states[k + 1]))
  {
    forall k | 0 <= k < |states|
      ensures Inv(states[k])
    {
      RunInv(states, labels, k);
    }
    InitInv(states[0]);
    forall k | 0 <= k < |labels|
      ensures A.AtomicNext(Abstract(states[k]), labels[k], Abstract(states[k + 1]))
    {
      StepRefines(states[k], labels[k], states[k + 1]);
    }
  }

  function TotalGiven<T(==)>(labels: seq<Label<T>>, x: T): nat {
    if labels == [] then 0 else TotalGiven(labels[..|labels| - 1], x) + A.Given(labels[|labels| - 1], x)
  }

  function TotalTaken<T(==)>(labels: seq<Label<T>>, x: T): nat {
    if labels == [] then 0 else TotalTaken(labels[..|labels| - 1], x) + A.Taken(labels[|labels| - 1], x)
  }

  lemma RunPrefix<T>(states: seq<State<T>>, labels: seq<Label<T>>)
    requires Run(states, labels) && |labels| > 0
    ensures Run(states[..|labels|], labels[..|labels| - 1])
  {
  }

  /** Conservation: in every run each item was pushed as often as it was returned plus as often as it is still inside. */
  lemma {:induction false} RunConserves<T>(states: seq<State<T>>, labels: seq<Label<T>>, x: T)
    requires Run(states, labels)
    ensures Inv(states[|labels|])
    ensures TotalGiven(labels, x) == TotalTaken(labels, x) + A.Inside(Abstract(states[|labels|]), x)
  {
    RunInv(states, labels, |labels|);
    var n := |labels|;
    if n == 0 {
      InitInv(states[0]);
      A.AllRestingHoldNothing(Abstract(states[0]).thieves, x);
    } else {
      RunPrefix(states, labels);
      RunConserves(states[..n], labels[..n - 1], x);
      StepRefines(states[n - 1], labels[n - 1], states[n]);
      A.AtomicStepConserves(Abstract(states[n - 1]), labels[n - 1], Abstract(states[n]), x);
    }
  }

  /** Nothing unpushed is returned, and nothing is returned more often than it was pushed. */
  lemma TakenWasGiven<T>(states: seq<State<T>>, labels: seq<Label<T>>, x: T)
    requires Run(states, labels)
    ensures TotalTaken(labels, x) <= TotalGiven(labels, x)
  {
    RunConserves(states, labels, x);
  }

  ghost predicate Quiescent<T>(s: State<T>) {
    s.owner.Idle? && forall i :: 0 <= i < |s.thieves| ==> s.thieves[i].Away?
  }

  /** With no operation in progress, pushed = returned + what lies in the published array from top to bottom. */
  lemma QuiescentBalance<T>(states: seq<State<T>>, labels: seq<Label<T>>, x: T)
    requires Run(states, labels) && Quiescent(states[|labels|])
    ensures Inv(states[|labels|])
    ensures var s := states[|labels|];
      s.top <= s.bottom
      && TotalGiven(labels, x) == TotalTaken(labels, x) + Count(Live(Current(s), s.top, s.bottom), x)
  {
    RunConserves(states, labels, x);
    var s := states[|labels|];
    A.AllRestingHoldNothing(Abstract(s).thieves, x);
  }

  // ---------- capacity ----------

  /** In every reachable state the capacity is a power of two, namely the initial one doubled once per resize, and at most three quarters are live. */
  lemma CapacityAlways<T>(states: seq<State<T>>, labels: seq<Label<T>>, k: nat)
    requires Run(states, labels) && k < |states|
    ensures Inv(states[k])
    ensures var s := states[k];
      var capacity := |Current(s)|;
      && IsPow2(capacity)
      && capacity == s.initial * Pow2(Resizes(s))
      && LiveEnd(s) - s.top <= capacity * 3 / 4
  {
    RunInv(states, labels, k);
    var s := states[k];
    var e: nat :| s.initial == Pow2(e);
    Pow2Add(e, Resizes(s));
  }

  /** Space bound: between operations the array is at most 8/3 of the largest size ever reached, once it has been resized. */
  lemma SpaceBound<T>(states: seq<State<T>>, labels: seq<Label<T>>, k: nat)
    requires Run(states, labels) && k < |states| && states[k].owner.Idle?
    ensures Inv(states[k])
    ensures states[k].resizeCount >= 1 ==> 3 * |Current(states[k])| <= 8 * states[k].maxSize
  {
    RunInv(states, labels, k);
  }

  /** A thief that is about to read or has read a slot, from whatever array, has the right item for the index its CAS can win. */
  lemma StaleArrayReadsRightItem<T>(states: seq<State<T>>, labels: seq<Label<T>>, k: nat, i: nat)
    requires Run(states, labels) && k < |states| && i < |states[k].thieves|
    ensures Inv(states[k])
    ensures var s := states[k];
      match s.thieves[i]
      case StealGotArray(t, a) => t == s.top ==> |Contents(s)| > 0 && a < |s.arrays| && Get(s.arrays[a], t) == Contents(s)[0]
      case StealGotItem(t, v) => t == s.top ==> |Contents(s)| > 0 && v == Contents(s)[0]
      case _ => true
  {
    RunInv(states, labels, k);
    assert ThiefOk(states[k], states[k].thieves[i]);
  }

  /** No thread is ever stuck inside an operation: its next step is always defined. */
  lemma OwnerNeverStuck<T>(s: State<T>, junk: T) returns (l: Label<T>, s': State<T>)
    requires Inv(s) && !s.owner.Idle?
    ensures OwnerNext(s, l, s')
  {
    l := OwnerStep;
    match s.owner
    case PushCalled(item) => s' := s.(owner := PushGotBottom(item, s.bottom));
    case PushGotBottom(item, b) => s' := s.(owner := PushGotTop(item, b, s.top));
    case PushGotTop(item, b, t) => s' := s.(owner := PushGotArray(item, b, t, s.current));
    case PushGotArray(item, b, t, a) =>
      if Distance(b, t) >= Threshold(|s.arrays[a]|) {
        var cells := seq(2 * |s.arrays[a]|, i => junk);
        l := OwnerAllocates(cells);
        s' := s.(arrays := s.arrays + [CopyLoop(s.arrays[a], cells, t, b)],
                 owner := PushResized(item, b, t, |s.arrays|));
      } else {
        s' := s.(owner := PushReady(item, b, t, a));
      }
    case PushResized(item, b, t, a) => s' := s.(current := a, owner := PushPublished(item, b, t, a));
    case PushPublished(item, b, t, a) => s' := s.(resizeCount := s.resizeCount + 1, owner := PushReady(item, b, t, a));
    case PushReady(item, b, t, a) =>
      s' := s.(arrays := s.arrays[a := Put(s.arrays[a], b, item)], owner := PushStored(item, b, t));
    case PushStored(item, b, t) =>
      s' := s.(bottom := Following(b), pushes := s.pushes + 1, owner := PushMeasure(Distance(b, t) + 1));
    case PushMeasure(size) => s' := s.(owner := PushRaiseMax(size, s.maxSize));
    case PushRaiseMax(size, seen) =>
      s' := if size > seen then s.(maxSize := size, owner := PushDone) else s.(owner := PushDone);
    case PushDone =>
      l := ReturnPush;
      s' := s.(owner := Idle);
    case PopCalled => s' := s.(owner := PopGotBottom(Previous(s.bottom)));
    case PopGotBottom(b) => s' := s.(owner := PopGotArray(b, s.current));
    case PopGotArray(b, a) => s' := s.(bottom := b, owner := PopStored(b, a));
    case PopStored(b, a) => s' := s.(owner := if s.top <= b then PopGotTop(b, a, s.top) else PopRestore(b, None));
    case PopGotTop(b, a, t) =>
      s' := s.(owner := if t == b then PopLast(b, t, Get(s.arrays[a], b)) else PopDone(Some(Get(s.arrays[a], b))));
    case PopLast(b, t, v) =>
      s' := if s.top == t then s.(top := Following(t), owner := PopRestore(b, Some(v)))
            else s.(owner := PopRestore(b, None));
    case PopRestore(b, result) => s' := s.(bottom := Following(b), owner := PopDone(result));
    case PopDone(result) =>
      l := ReturnPop(result);
      s' := s.(owner := Idle);
  }

  lemma ThiefNeverStuck<T>(s: State<T>, i: nat) returns (l: Label<T>, s': State<T>)
    requires Inv(s) && i < |s.thieves|
    ensures ThiefNext(s, i, l, s')
  {
    assert ThiefOk(s, s.thieves[i]);
    l := ThiefStep(i);
    match s.thieves[i]
    case Away =>
      l := CallSteal(i);
      s' := s.(thieves := s.thieves[i := StealCalled]);
    case StealCalled => s' := s.(thieves := s.thieves[i := StealGotTop(s.top)]);
    case StealGotTop(t) =>
      s' := s.(thieves := s.thieves[i := if t < s.bottom then StealGotBottom(t) else StealDone(None)]);
    case StealGotBottom(t) => s' := s.(thieves := s.thieves[i := StealGotArray(t, s.current)]);
    case StealGotArray(t, a) => s' := s.(thieves := s.thieves[i := StealGotItem(t, Get(s.arrays[a], t))]);
    case StealGotItem(t, v) =>
      s' := if s.top == t then s.(top := Following(t), thieves := s.thieves[i := StealDone(Some(v))])
            else s.(thieves := s.thieves[i := StealDone(None)]);
    case StealDone(result) =>
      l := ReturnSteal(i, result);
      s' := s.(thieves := s.thieves[i := Away]);
  }
}

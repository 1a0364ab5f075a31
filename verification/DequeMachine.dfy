/**
 The Chase-Lev work-stealing deque as a transition system: one owner, any number of thieves, one
 sequentially consistent step per atomic access. Arrays that a resize replaced stay allocated, because
 a thief may still hold one.
 */
module DequeMachine {
  import opened Wrappers
  import opened Bits

  /** The largest `size_t`; `_bottom.load() - 1` of an unused deque is this value. */
  const SIZE_MAX: nat := 0xFFFF_FFFF_FFFF_FFFF

  /** Where the owner is inside push or pop; the fields are its local variables. */
  datatype OwnerPc<T> =
    | Idle
    | PushCalled(item: T)
    | PushGotBottom(item: T, b: nat)
    | PushGotTop(item: T, b: nat, t: nat)
    | PushGotArray(item: T, b: nat, t: nat, a: nat)
    | PushResized(item: T, b: nat, t: nat, a: nat)
    | PushPublished(item: T, b: nat, t: nat, a: nat)
    | PushReady(item: T, b: nat, t: nat, a: nat)
    | PushStored(item: T, b: nat, t: nat)
    | PushMeasure(size: nat)
    | PushRaiseMax(size: nat, seen: nat)
    | PushDone
    | PopCalled
    | PopGotBottom(b: nat)
    | PopGotArray(b: nat, a: nat)
    | PopStored(b: nat, a: nat)
    | PopGotTop(b: nat, a: nat, t: nat)
    | PopLast(b: nat, t: nat, v: T)
    | PopRestore(b: nat, result: Option<T>)
    | PopDone(result: Option<T>)

  /** Where a thief is inside steal. */
  datatype ThiefPc<T> =
    | Away
    | StealCalled
    | StealGotTop(t: nat)
    | StealGotBottom(t: nat)
    | StealGotArray(t: nat, a: nat)
    | StealGotItem(t: nat, v: T)
    | StealDone(result: Option<T>)

  datatype State<T> = State(
    top: nat,
    bottom: nat,
    arrays: seq<seq<T>>,
    current: nat,
    initial: nat,
    resizeCount: nat,
    maxSize: nat,
    pushes: nat,
    owner: OwnerPc<T>,
    thieves: seq<ThiefPc<T>>)

  /** A label names the thread and its choice; calls and returns are the visible ones. */
  datatype Label<T> =
    | CallPush(item: T)
    | ReturnPush
    | CallPop
    | ReturnPop(result: Option<T>)
    | OwnerStep
    | OwnerAllocates(junk: seq<T>)
    | OwnerSpuriousCas
    | CallSteal(thief: nat)
    | ReturnSteal(thief: nat, result: Option<T>)
    | ThiefStep(thief: nat)

  function Get<T>(cells: seq<T>, index: nat): T
    requires |cells| > 0
  {
    cells[index % |cells|]
  }

  function Put<T>(cells: seq<T>, index: nat, item: T): (r: seq<T>)
    requires |cells| > 0
    ensures |r| == |cells|
  {
    cells[index % |cells| := item]
  }

  /** The copy loop of `resize` from index i on; `target` starts as the new buffer's uninitialised cells. */
  function CopyLoop<T>(source: seq<T>, target: seq<T>, i: nat, bottom: nat): (r: seq<T>)
    requires |source| > 0 && |target| > 0
    ensures |r| == |target|
    decreases bottom - i
  {
    if i < bottom then CopyLoop(source, Put(target, i, Get(source, i)), i + 1, bottom) else target
  }

  /** `bottom - 1` on `size_t`. */
  function Previous(b: nat): nat {
    if b == 0 then SIZE_MAX else b - 1
  }

  /** `index + 1` on `size_t`. */
  function Following(index: nat): nat {
    if index == SIZE_MAX then 0 else index + 1
  }

  /** `bottom - top` on `size_t`. */
  function Distance(b: nat, t: nat): nat
    requires t <= SIZE_MAX
  {
    if t <= b then b - t else SIZE_MAX + 1 + b - t
  }

  /** The 75% rule that makes push resize. */
  function Threshold(capacity: nat): nat {
    capacity * 3 / 4
  }

  ghost predicate Allocated<T>(s: State<T>) {
    && s.current < |s.arrays|
    && (forall k :: 0 <= k < |s.arrays| ==> |s.arrays[k]| > 0)
    && s.top <= SIZE_MAX
  }

  function Current<T>(s: State<T>): seq<T>
    requires s.current < |s.arrays|
  {
    s.arrays[s.current]
  }

  /** One step of the owner. */
  ghost predicate OwnerNext<T>(s: State<T>, l: Label<T>, s': State<T>)
    requires Allocated(s)
  {
    match s.owner
    case Idle =>
      || (l.CallPush? && s' == s.(owner := PushCalled(l.item)))
      || (l.CallPop? && s' == s.(owner := PopCalled))
    case PushCalled(item) =>
      l.OwnerStep? && s' == s.(owner := PushGotBottom(item, s.bottom))
    case PushGotBottom(item, b) =>
      l.OwnerStep? && s' == s.(owner := PushGotTop(item, b, s.top))
    case PushGotTop(item, b, t) =>
      l.OwnerStep? && s' == s.(owner := PushGotArray(item, b, t, s.current))
    case PushGotArray(item, b, t, a) =>
      && a < |s.arrays| && t <= SIZE_MAX
      && if Distance(b, t) >= Threshold(|s.arrays[a]|) then
           && l.OwnerAllocates? && |l.junk| == 2 * |s.arrays[a]|
           && s' == s.(arrays := s.arrays + [CopyLoop(s.arrays[a], l.junk, t, b)],
                       owner := PushResized(item, b, t, |s.arrays|))
         else
           l.OwnerStep? && s' == s.(owner := PushReady(item, b, t, a))
    case PushResized(item, b, t, a) =>
      l.OwnerStep? && s' == s.(current := a, owner := PushPublished(item, b, t, a))
    case PushPublished(item, b, t, a) =>
      l.OwnerStep? && s' == s.(resizeCount := s.resizeCount + 1, owner := PushReady(item, b, t, a))
    case PushReady(item, b, t, a) =>
      && a < |s.arrays|
      && l.OwnerStep? && s' == s.(arrays := s.arrays[a := Put(s.arrays[a], b, item)], owner := PushStored(item, b, t))
    case PushStored(item, b, t) =>
      && t <= SIZE_MAX
      && l.OwnerStep? && s' == s.(bottom := Following(b), pushes := s.pushes + 1, owner := PushMeasure(Distance(b, t) + 1))
    case PushMeasure(size) =>
      l.OwnerStep? && s' == s.(owner := PushRaiseMax(size, s.maxSize))
    case PushRaiseMax(size, seen) =>
      if size > seen then
        || (l.OwnerStep? && s.maxSize == seen && s' == s.(maxSize := size, owner := PushDone))
        || (l.OwnerStep? && s.maxSize != seen && s' == s.(owner := PushRaiseMax(size, s.maxSize)))
        || (l.OwnerSpuriousCas? && s' == s.(owner := PushRaiseMax(size, s.maxSize)))
      else
        l.OwnerStep? && s' == s.(owner := PushDone)
    case PushDone =>
      l.ReturnPush? && s' == s.(owner := Idle)
    case PopCalled =>
      l.OwnerStep? && s' == s.(owner := PopGotBottom(Previous(s.bottom)))
    case PopGotBottom(b) =>
      l.OwnerStep? && s' == s.(owner := PopGotArray(b, s.current))
    case PopGotArray(b, a) =>
      l.OwnerStep? && s' == s.(bottom := b, owner := PopStored(b, a))
    case PopStored(b, a) =>
      && l.OwnerStep?
      && s' == s.(owner := if s.top <= b then PopGotTop(b, a, s.top) else PopRestore(b, None))
    case PopGotTop(b, a, t) =>
      && a < |s.arrays|
      && l.OwnerStep?
      && s' == s.(owner := if t == b then PopLast(b, t, Get(s.arrays[a], b)) else PopDone(Some(Get(s.arrays[a], b))))
    case PopLast(b, t, v) =>
      && l.OwnerStep?
      && s' == if s.top == t then s.(top := Following(t), owner := PopRestore(b, Some(v)))
               else s.(owner := PopRestore(b, None))
    case PopRestore(b, result) =>
      l.OwnerStep? && s' == s.(bottom := Following(b), owner := PopDone(result))
    case PopDone(result) =>
      l == ReturnPop(result) && s' == s.(owner := Idle)
  }

  /** One step of thief i. */
  ghost predicate ThiefNext<T>(s: State<T>, i: nat, l: Label<T>, s': State<T>)
    requires Allocated(s) && i < |s.thieves|
  {
    match s.thieves[i]
    case Away =>
      l == CallSteal(i) && s' == s.(thieves := s.thieves[i := StealCalled])
    case StealCalled =>
      l == ThiefStep(i) && s' == s.(thieves := s.thieves[i := StealGotTop(s.top)])
    case StealGotTop(t) =>
      && l == ThiefStep(i)
      && s' == s.(thieves := s.thieves[i := if t < s.bottom then StealGotBottom(t) else StealDone(None)])
    case StealGotBottom(t) =>
      l == ThiefStep(i) && s' == s.(thieves := s.thieves[i := StealGotArray(t, s.current)])
    case StealGotArray(t, a) =>
      && a < |s.arrays|
      && l == ThiefStep(i) && s' == s.(thieves := s.thieves[i := StealGotItem(t, Get(s.arrays[a], t))])
    case StealGotItem(t, v) =>
      && l == ThiefStep(i)
      && s' == if s.top == t then s.(top := Following(t), thieves := s.thieves[i := StealDone(Some(v))])
               else s.(thieves := s.thieves[i := StealDone(None)])
    case StealDone(result) =>
      l == ReturnSteal(i, result) && s' == s.(thieves := s.thieves[i := Away])
  }

  ghost predicate Next<T>(s: State<T>, l: Label<T>, s': State<T>)
    requires Allocated(s)
  {
    || OwnerNext(s, l, s')
    || (exists i :: 0 <= i < |s.thieves| && ThiefNext(s, i, l, s'))
  }

  /** What callers must respect: no pop before the first push has been made, and fewer than 2^64 pushes in all. */
  predicate CallAllowed<T>(s: State<T>, l: Label<T>) {
    match l
    case CallPop => s.pushes >= 1
    case CallPush(_) => s.pushes < SIZE_MAX
    case _ => true
  }

  /** A new deque: `capacity` is the result of nextPowerOf2, the cells are uninitialised. */
  ghost predicate Init<T>(s: State<T>) {
    && s.top == 0 && s.bottom == 0
    && |s.arrays| == 1 && s.current == 0
    && IsPow2(s.initial) && |s.arrays[0]| == s.initial
    && s.resizeCount == 0 && s.maxSize == 0 && s.pushes == 0
    && s.owner == Idle
    && forall i :: 0 <= i < |s.thieves| ==> s.thieves[i] == Away
  }
}

/** Push, pop and steal run without interruption: what each whole operation does to the shared state. */
module DequeAlone {
  import opened Wrappers
  import opened DequeMachine
  import opened DequeProof
  import A = AtomicDeque

  /** A valid state in which the owner is between operations. */
  ghost predicate Ready<T>(s: State<T>) {
    Inv(s) && s.owner.Idle?
  }

  ghost predicate IsFull<T>(s: State<T>)
    requires Ready(s)
  {
    s.bottom - s.top >= Threshold(|Current(s)|)
  }

  /** The uninterrupted push; `junk` is the uninitialised memory a resize receives. */
  ghost function PushAlone<T>(s: State<T>, item: T, junk: seq<T>): State<T>
    requires Ready(s) && (IsFull(s) ==> |junk| == 2 * |Current(s)|)
  {
    var size := s.bottom - s.top + 1;
    var maxSize := if size > s.maxSize then size else s.maxSize;
    var pushed := s.(bottom := Following(s.bottom), pushes := s.pushes + 1, maxSize := maxSize);
    if IsFull(s) then
      pushed.(arrays := s.arrays + [Put(CopyLoop(Current(s), junk, s.top, s.bottom), s.bottom, item)],
              current := |s.arrays|,
              resizeCount := s.resizeCount + 1)
    else
      pushed.(arrays := s.arrays[s.current := Put(Current(s), s.bottom, item)])
  }

  /** The uninterrupted pop, on any idle state, also one on which nothing was pushed. */
  ghost function PopAlone<T>(s: State<T>): (State<T>, Option<T>)
    requires Ready(s)
  {
    var b := Previous(s.bottom);
    if s.top < b then (s.(bottom := b), Some(Get(Current(s), b)))
    else if s.top == b then (s.(top := Following(b), bottom := Following(b)), Some(Get(Current(s), b)))
    else (s.(bottom := Following(b)), None)
  }

  /** The uninterrupted steal of a thief that was away. */
  ghost function StealAlone<T>(s: State<T>): (State<T>, Option<T>)
    requires Ready(s)
  {
    if s.top < s.bottom then (s.(top := Following(s.top)), Some(Get(Current(s), s.top))) else (s, None)
  }

  /** The reads a push begins with. */
  lemma PushLooks<T>(s: State<T>, item: T) returns (s': State<T>)
    requires Ready(s) && s.pushes < SIZE_MAX
    ensures Inv(s') && Abstract(s') == Abstract(s).(owner := A.Pushing(item))
    ensures s' == s.(owner := PushGotArray(item, s.bottom, s.top, s.current))
  {
    hide SpaceOk, ThiefOk, Contents;
    var s1 := s.(owner := PushCalled(item));
    StepRefines(s, CallPush(item), s1);
    var s2 := s1.(owner := PushGotBottom(item, s.bottom));
    StepRefines(s1, OwnerStep, s2);
    var s3 := s2.(owner := PushGotTop(item, s.bottom, s.top));
    StepRefines(s2, OwnerStep, s3);
    s' := s3.(owner := PushGotArray(item, s.bottom, s.top, s.current));
    StepRefines(s3, OwnerStep, s');
  }

  /** The accesses of a push up to its write, as machine steps. */
  lemma PushFirstHalf<T>(s: State<T>, item: T, junk: seq<T>) returns (s': State<T>)
    requires Ready(s) && s.pushes < SIZE_MAX && (IsFull(s) ==> |junk| == 2 * |Current(s)|)
    ensures Inv(s') && Abstract(s') == Abstract(s).(owner := A.Pushing(item))
    ensures IsFull(s) ==> s' == s.(
        arrays := s.arrays + [CopyLoop(Current(s), junk, s.top, s.bottom)],
        current := |s.arrays|, resizeCount := s.resizeCount + 1,
        owner := PushReady(item, s.bottom, s.top, |s.arrays|))
    ensures !IsFull(s) ==> s' == s.(owner := PushReady(item, s.bottom, s.top, s.current))
  {
    hide SpaceOk, ThiefOk, Contents;
    var looked := PushLooks(s, item);
    if IsFull(s) {
      var n := |s.arrays|;
      var s1 := looked.(arrays := s.arrays + [CopyLoop(Current(s), junk, s.top, s.bottom)],
                        owner := PushResized(item, s.bottom, s.top, n));
      StepRefines(looked, OwnerAllocates(junk), s1);
      var s2 := s1.(current := n, owner := PushPublished(item, s.bottom, s.top, n));
      StepRefines(s1, OwnerStep, s2);
      s' := s2.(resizeCount := s.resizeCount + 1, owner := PushReady(item, s.bottom, s.top, n));
      StepRefines(s2, OwnerStep, s');
    } else {
      s' := looked.(owner := PushReady(item, s.bottom, s.top, s.current));
      StepRefines(looked, OwnerStep, s');
    }
  }

  /** The write and the advance of `_bottom`. */
  lemma PushStores<T>(s: State<T>) returns (s': State<T>)
    requires Inv(s) && s.owner.PushReady?
    ensures Inv(s') && Abstract(s') == A.Deque(Abstract(s).contents + [s.owner.item], A.Pushed, Abstract(s).thieves)
    ensures var PushReady(item, b, t, a) := s.owner;
      a < |s.arrays| && |s.arrays[a]| > 0 && t <= b
      && s' == s.(arrays := s.arrays[a := Put(s.arrays[a], b, item)],
                  bottom := Following(b), pushes := s.pushes + 1, owner := PushMeasure(b - t + 1))
  {
    hide SpaceOk;
    var PushReady(item, b, t, a) := s.owner;
    var s1 := s.(arrays := s.arrays[a := Put(s.arrays[a], b, item)], owner := PushStored(item, b, t));
    StepRefines(s, OwnerStep, s1);
    s' := s1.(bottom := b + 1, pushes := s.pushes + 1, owner := PushMeasure(b - t + 1));
    StepRefines(s1, OwnerStep, s');
  }

  /** The update of `_maxSize` and the return. */
  lemma PushMeasures<T>(s: State<T>) returns (s': State<T>)
    requires Inv(s) && s.owner.PushMeasure?
    ensures Inv(s') && Abstract(s') == Abstract(s).(owner := A.Resting)
    ensures var size := s.owner.size;
      s' == s.(maxSize := if size > s.maxSize then size else s.maxSize, owner := Idle)
  {
    hide SpaceOk;
    var size := s.owner.size;
    var s1 := s.(owner := PushRaiseMax(size, s.maxSize));
    StepRefines(s, OwnerStep, s1);
    var s2 := s1.(maxSize := if size > s.maxSize then size else s.maxSize, owner := PushDone);
    StepRefines(s1, OwnerStep, s2);
    s' := s2.(owner := Idle);
    StepRefines(s2, ReturnPush, s');
  }

  /** An uninterrupted push is a run of the machine's steps and appends the item. */
  lemma PushAloneAppends<T>(s: State<T>, item: T, junk: seq<T>)
    requires Ready(s) && s.pushes < SIZE_MAX && (IsFull(s) ==> |junk| == 2 * |Current(s)|)
    ensures Ready(PushAlone(s, item, junk))
    ensures Contents(PushAlone(s, item, junk)) == Contents(s) + [item]
  {
    var mid := PushFirstHalf(s, item, junk);
    var stored := PushStores(mid);
    var end := PushMeasures(stored);
    if IsFull(s) {
      assert end.arrays == PushAlone(s, item, junk).arrays;
    }
    assert end == PushAlone(s, item, junk);
  }

  /** The shared accesses of a pop that reads `_top` and finds it at or below its slot. */
  lemma PopReachesTop<T>(s: State<T>) returns (s': State<T>)
    requires Ready(s) && s.pushes >= 1
    ensures Inv(s') && Abstract(s') == Abstract(s).(owner := A.Popping)
    ensures s.bottom >= 1 && s' == s.(bottom := s.bottom - 1, owner := PopStored(s.bottom - 1, s.current))
  {
    hide SpaceOk;
    var b := s.bottom - 1;
    var s1 := s.(owner := PopCalled);
    StepRefines(s, CallPop, s1);
    var s2 := s1.(owner := PopGotBottom(b));
    StepRefines(s1, OwnerStep, s2);
    var s3 := s2.(owner := PopGotArray(b, s.current));
    StepRefines(s2, OwnerStep, s3);
    s' := s3.(bottom := b, owner := PopStored(b, s.current));
    StepRefines(s3, OwnerStep, s');
  }

  lemma PopFinishes<T>(s: State<T>, b: nat, a: nat) returns (s': State<T>)
    requires Inv(s) && s.owner == PopStored(b, a)
    ensures Inv(s') && s'.owner.PopDone? && A.OwnerTakesEffect(Abstract(s), Abstract(s'))
    ensures b < SIZE_MAX && a == s.current
    ensures s' == if s.top < b then s.(owner := PopDone(Some(Get(Current(s), b))))
                  else if s.top == b then s.(top := b + 1, bottom := b + 1, owner := PopDone(Some(Get(Current(s), b))))
                  else s.(bottom := b + 1, owner := PopDone(None))
  {
    hide SpaceOk;
    if s.top <= b {
      var s1 := s.(owner := PopGotTop(b, a, s.top));
      StepRefines(s, OwnerStep, s1);
      if s.top < b {
        s' := s1.(owner := PopDone(Some(Get(Current(s), b))));
        StepRefines(s1, OwnerStep, s');
      } else {
        var v := Get(Current(s), b);
        var s2 := s1.(owner := PopLast(b, b, v));
        StepRefines(s1, OwnerStep, s2);
        var s3 := s2.(top := b + 1, owner := PopRestore(b, Some(v)));
        StepRefines(s2, OwnerStep, s3);
        s' := s3.(bottom := b + 1, owner := PopDone(Some(v)));
        StepRefines(s3, OwnerStep, s');
      }
    } else {
      var s1 := s.(owner := PopRestore(b, None));
      StepRefines(s, OwnerStep, s1);
      s' := s1.(bottom := b + 1, owner := PopDone(None));
      StepRefines(s1, OwnerStep, s');
    }
  }

  /** From s, thief i's own steps alone lead through these states. */
  ghost predicate IsSteal<T>(s: State<T>, i: nat, result: Option<T>, states: seq<State<T>>, labels: seq<Label<T>>) {
    && |states| == |labels| + 1 && states[0] == s
    && labels != [] && labels[0] == CallSteal(i) && labels[|labels| - 1] == ReturnSteal(i, result)
    && (forall k :: 0 < k < |labels| - 1 ==> labels[k] == ThiefStep(i))
    && forall k :: 0 <= k < |labels| ==> StealMove(states[k], i, labels[k], states[k + 1])
  }

  ghost predicate StealMove<T>(s: State<T>, i: nat, l: Label<T>, s': State<T>) {
    Inv(s) && i < |s.thieves| && ThiefNext(s, i, l, s')
  }

  lemma StealLooks<T>(s: State<T>, i: nat)
    requires Ready(s) && i < |s.thieves| && s.thieves[i].Away?
    ensures StealMove(s, i, CallSteal(i), At(s, i, StealCalled))
    ensures StealMove(At(s, i, StealCalled), i, ThiefStep(i), At(s, i, StealGotTop(s.top)))
    ensures Inv(At(s, i, StealGotTop(s.top)))
  {
    hide SpaceOk, OwnerOk, Contents;
    StealMoves(s, i, CallSteal(i), At(s, i, StealCalled));
    StealMoves(At(s, i, StealCalled), i, ThiefStep(i), At(s, i, StealGotTop(s.top)));
  }

  lemma StealReads<T>(s: State<T>, i: nat, v: T)
    requires Ready(s) && i < |s.thieves| && s.thieves[i].Away? && s.top < s.bottom && v == Get(Current(s), s.top)
    requires Inv(At(s, i, StealGotTop(s.top)))
    ensures StealMove(At(s, i, StealGotTop(s.top)), i, ThiefStep(i), At(s, i, StealGotBottom(s.top)))
    ensures StealMove(At(s, i, StealGotBottom(s.top)), i, ThiefStep(i), At(s, i, StealGotArray(s.top, s.current)))
    ensures StealMove(At(s, i, StealGotArray(s.top, s.current)), i, ThiefStep(i), At(s, i, StealGotItem(s.top, v)))
    ensures Inv(At(s, i, StealGotItem(s.top, v)))
  {
    hide SpaceOk, OwnerOk, Contents;
    var gotTop, gotBottom := At(s, i, StealGotTop(s.top)), At(s, i, StealGotBottom(s.top));
    StealMoves(gotTop, i, ThiefStep(i), gotBottom);
    var gotArray := At(s, i, StealGotArray(s.top, s.current));
    StealMoves(gotBottom, i, ThiefStep(i), gotArray);
    StealMoves(gotArray, i, ThiefStep(i), At(s, i, StealGotItem(s.top, v)));
  }

  /** An uninterrupted steal by a thief that is away is a run of its steps. */
  lemma StealAloneIsRun<T>(s: State<T>, i: nat) returns (states: seq<State<T>>, labels: seq<Label<T>>)
    requires Ready(s) && i < |s.thieves| && s.thieves[i].Away?
    ensures IsSteal(s, i, StealAlone(s).1, states, labels) && states[|labels|] == StealAlone(s).0
  {
    hide SpaceOk, OwnerOk, Contents;
    StealLooks(s, i);
    var called, gotTop := At(s, i, StealCalled), At(s, i, StealGotTop(s.top));
    if s.top < s.bottom {
      var v := Get(Current(s), s.top);
      StealReads(s, i, v);
      var gotBottom, gotArray := At(s, i, StealGotBottom(s.top)), At(s, i, StealGotArray(s.top, s.current));
      var gotItem := At(s, i, StealGotItem(s.top, v));
      var done := At(s, i, StealDone(Some(v))).(top := Following(s.top));
      StealMoves(gotItem, i, ThiefStep(i), done);
      var away := At(done, i, Away);
      assert away.thieves == s.thieves;
      states := [s, called, gotTop, gotBottom, gotArray, gotItem, done, away];
      labels := [CallSteal(i), ThiefStep(i), ThiefStep(i), ThiefStep(i), ThiefStep(i), ThiefStep(i), ReturnSteal(i, Some(v))];
    } else {
      var done := At(s, i, StealDone(None));
      StealMoves(gotTop, i, ThiefStep(i), done);
      var away := At(done, i, Away);
      assert away.thieves == s.thieves;
      states := [s, called, gotTop, done, away];
      labels := [CallSteal(i), ThiefStep(i), ThiefStep(i), ReturnSteal(i, None)];
    }
  }

  function At<T>(s: State<T>, i: nat, p: ThiefPc<T>): State<T>
    requires i < |s.thieves|
  {
    s.(thieves := s.thieves[i := p])
  }

  lemma StealMoves<T>(s: State<T>, i: nat, l: Label<T>, s': State<T>)
    requires Inv(s) && i < |s.thieves| && ThiefNext(s, i, l, s')
    ensures Inv(s')
  {
    hide Inv;
    if s.thieves[i].StealGotItem? && s.top == s.thieves[i].t {
      StealWins(s, i, l, s');
    } else {
      StealOtherSteps(s, i, l, s');
    }
  }

  /** Whether result and new contents are those of an atomic pop-back. */
  ghost predicate IsPopBack<T>(before: seq<T>, after: seq<T>, result: Option<T>) {
    if before == [] then result == None && after == []
    else result == Some(before[|before| - 1]) && after == before[..|before| - 1]
  }

  lemma PopAloneAfterPush<T>(s: State<T>)
    requires Ready(s) && s.pushes >= 1
    ensures Ready(PopAlone(s).0)
    ensures IsPopBack(Contents(s), Contents(PopAlone(s).0), PopAlone(s).1)
  {
    var mid := PopReachesTop(s);
    var end := PopFinishes(mid, s.bottom - 1, s.current);
    var done := end.(owner := Idle);
    StepRefines(end, ReturnPop(end.owner.result), done);
    assert done == PopAlone(s).0;
  }

  /** Without a push the decrement wraps: pop claims success and returns an uninitialised cell of an empty deque. */
  lemma PopAloneBeforePush<T>(s: State<T>)
    requires Ready(s) && s.pushes == 0
    ensures Contents(s) == []
    ensures PopAlone(s) == (s.(bottom := SIZE_MAX), Some(Get(Current(s), SIZE_MAX)))
  {
  }

  /** Pop returns what an atomic pop-back returns exactly when something has been pushed before. */
  lemma PopCorrectIffPushed<T>(s: State<T>)
    requires Ready(s)
    ensures (PopAlone(s).1 == if Contents(s) == [] then None else Some(Contents(s)[|Contents(s)| - 1])) <==> s.pushes >= 1
  {
    if s.pushes >= 1 { PopAloneAfterPush(s); } else { PopAloneBeforePush(s); }
  }

  /** An uninterrupted steal takes the front item, and fails only on an empty deque. */
  lemma StealAloneTakesFront<T>(s: State<T>)
    requires Ready(s)
    ensures Ready(StealAlone(s).0)
    ensures Contents(s) == [] ==> StealAlone(s).1 == None && Contents(StealAlone(s).0) == []
    ensures Contents(s) != [] ==>
      StealAlone(s).1 == Some(Contents(s)[0]) && Contents(StealAlone(s).0) == Contents(s)[1..]
  {
    if s.top < s.bottom {
      var s' := s.(top := s.top + 1);
      LiveDropFirst(Current(s), s.top, s.bottom);
      forall j | 0 <= j < |s'.thieves|
        ensures ThiefOk(s', s'.thieves[j])
      {
        assert ThiefOk(s, s.thieves[j]);
      }
      assert Inv(s');
    }
  }

  /** Forgetting arrays nobody holds keeps a thief-free idle state valid. */
  ghost function Collapse<T>(s: State<T>): State<T>
    requires s.current < |s.arrays|
  {
    s.(arrays := [Current(s)], current := 0)
  }

  lemma CollapseReady<T>(s: State<T>)
    requires Ready(s) && s.thieves == []
    ensures Ready(Collapse(s)) && Contents(Collapse(s)) == Contents(s)
  {
  }
}

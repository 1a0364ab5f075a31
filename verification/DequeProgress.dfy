/** Lock-freedom of the deque: a steal that loses its race loses it to an operation that took an item. */
module DequeProgress {
  import opened Wrappers
  import opened DequeMachine
  import opened DequeProof

  /** Thief i is inside a steal and has read t from `_top`. */
  predicate Holds<T>(p: ThiefPc<T>, t: nat) {
    match p
    case StealGotTop(t') => t' == t
    case StealGotBottom(t') => t' == t
    case StealGotArray(t', _) => t' == t
    case StealGotItem(t', _) => t' == t
    case _ => false
  }

  /** In this step the owner's pop or another thief's steal than i takes the item at `_top`. */
  ghost predicate OtherTakes<T>(s: State<T>, s': State<T>, i: nat) {
    && s'.top == s.top + 1
    && (|| (s.owner.PopLast? && s'.owner.PopRestore? && s'.owner.result.Some?)
        || (exists j :: 0 <= j < |s.thieves| && j != i && j < |s'.thieves|
              && s.thieves[j].StealGotItem? && s'.thieves[j].StealDone? && s'.thieves[j].result.Some?))
  }

  lemma OwnerTopStep<T>(s: State<T>, l: Label<T>, s': State<T>, i: nat)
    requires Inv(s) && OwnerNext(s, l, s') && s'.top != s.top
    ensures OtherTakes(s, s', i)
  {
    hide SpaceOk, ThiefOk, Threshold, CopyLoop;
  }

  lemma ThiefTopStep<T>(s: State<T>, j: nat, l: Label<T>, s': State<T>, i: nat)
    requires Inv(s) && j < |s.thieves| && ThiefNext(s, j, l, s') && s'.top != s.top && j != i
    ensures OtherTakes(s, s', i)
  {
    hide SpaceOk, OwnerOk, Threshold;
    assert ThiefOk(s, s.thieves[j]);
    assert s.thieves[j].StealGotItem? && s'.thieves[j].StealDone?;
  }

  /** While thief i goes on holding t, only others move `_top`. */
  lemma HoldingStep<T>(s: State<T>, l: Label<T>, s': State<T>, i: nat, t: nat)
    requires Inv(s) && Next(s, l, s') && i < |s.thieves| && i < |s'.thieves|
    requires Holds(s.thieves[i], t) && Holds(s'.thieves[i], t)
    ensures s'.top == s.top || OtherTakes(s, s', i)
  {
    if s'.top != s.top {
      if OwnerNext(s, l, s') {
        OwnerTopStep(s, l, s', i);
      } else {
        var j :| 0 <= j < |s.thieves| && ThiefNext(s, j, l, s');
        if j == i {
          OwnCasEndsSteal(s, i, l, s');
        } else {
          ThiefTopStep(s, j, l, s', i);
        }
      }
    }
  }

  lemma OwnCasEndsSteal<T>(s: State<T>, i: nat, l: Label<T>, s': State<T>)
    requires Inv(s) && i < |s.thieves| && ThiefNext(s, i, l, s') && s'.top != s.top
    ensures i < |s'.thieves| && s'.thieves[i].StealDone?
  {
    hide Inv;
  }

  /** If `_top` is not t any more, someone else has taken an item since. */
  lemma {:induction false} SomeoneTook<T>(states: seq<State<T>>, labels: seq<Label<T>>, from: nat, to: nat, i: nat, t: nat) returns (m: nat)
    requires Run(states, labels) && from <= to < |states| && states[from].top == t && states[to].top != t
    requires forall k :: from <= k <= to ==> i < |states[k].thieves| && Holds(states[k].thieves[i], t)
    ensures from <= m < to && OtherTakes(states[m], states[m + 1], i)
  {
    hide Inv, Next, Holds, OtherTakes;
    RunInv(states, labels, to - 1);
    HoldingStep(states[to - 1], labels[to - 1], states[to], i, t);
    if states[to - 1].top == states[to].top {
      m := SomeoneTook(states, labels, from, to - 1, i, t);
    } else {
      m := to - 1;
    }
  }

  /**
   In every run: when a steal fails at its compare-and-swap, then between its reading of `_top` and that failure the
   owner's pop or another thief's steal took an item. `read` is the step that reads `_top`, `failed` the failing one.
   */
  lemma FailedStealMeansProgress<T>(states: seq<State<T>>, labels: seq<Label<T>>, i: nat, read: nat, failed: nat) returns (m: nat)
    requires Run(states, labels) && read < failed < |labels|
    requires i < |states[read].thieves| && states[read].thieves[i].StealCalled?
    requires forall k :: read < k <= failed ==> i < |states[k].thieves| && Holds(states[k].thieves[i], states[read].top)
    requires states[failed].thieves[i].StealGotItem?
    requires i < |states[failed + 1].thieves| && states[failed + 1].thieves[i] == StealDone(None)
    ensures read < m < failed && OtherTakes(states[m], states[m + 1], i)
  {
    hide Inv, OtherTakes;
    RunInv(states, labels, read);
    RunInv(states, labels, failed);
    TopWhenRead(states[read], labels[read], states[read + 1], i);
    CasFailsOnOtherTop(states[failed], labels[failed], states[failed + 1], i);
    m := SomeoneTook(states, labels, read + 1, failed, i, states[read].top);
  }

  lemma TopWhenRead<T>(s: State<T>, l: Label<T>, s': State<T>, i: nat)
    requires Inv(s) && Next(s, l, s') && i < |s.thieves| && s.thieves[i].StealCalled?
    requires i < |s'.thieves| && Holds(s'.thieves[i], s.top)
    ensures s'.top == s.top
  {
    hide SpaceOk, OwnerOk, ThiefOk, CopyLoop, Threshold;
    if OwnerNext(s, l, s') {
      OwnerLeavesThieves(s, l, s');
    }
  }

  lemma OwnerLeavesThieves<T>(s: State<T>, l: Label<T>, s': State<T>)
    requires Allocated(s) && OwnerNext(s, l, s')
    ensures s'.thieves == s.thieves
  {
    hide CopyLoop, Threshold;
  }

  lemma CasFailsOnOtherTop<T>(s: State<T>, l: Label<T>, s': State<T>, i: nat)
    requires Inv(s) && Next(s, l, s') && i < |s.thieves| && s.thieves[i].StealGotItem?
    requires i < |s'.thieves| && s'.thieves[i] == StealDone(None)
    ensures s.top != s.thieves[i].t
  {
    hide SpaceOk, OwnerOk, ThiefOk, CopyLoop, Threshold;
    if OwnerNext(s, l, s') {
      OwnerLeavesThieves(s, l, s');
    }
  }
}

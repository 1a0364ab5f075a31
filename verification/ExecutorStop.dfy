/** When `stop` misses a worker: exactly when it can, and that it then waits. */
module ExecutorStop {
  import opened Bits
  import opened Executor
  import opened ExecutorProof
  import opened RoundRobin

  // ---------- when stop misses a worker ----------

  /** Some continuation puts worker w to sleep. */
  ghost predicate CanSleep(s: State, w: nat) {
    exists states, labels :: Path(states, labels) && states[0] == s && SleepsLast(states, w)
  }

  ghost predicate SleepsLast(states: seq<State>, w: nat) {
    states != [] && w < |states[|states| - 1].workers| && states[|states| - 1].workers[w].Blocked?
  }

  ghost predicate Awake(s: State, w: nat) {
    !s.running && w < |s.workers| && !s.workers[w].Blocking? && !s.workers[w].Blocked?
  }

  lemma AwakeStep(s: State, l: Label, w: nat)
    requires Shaped(s) && Enabled(s, l) && Awake(s, w)
    ensures Awake(Step(s, l), w)
  {
    StaysStopped(s, l);
    if l == WorkerStep(w) || l == StealFails(w) {
      hide Free, QueueOfLoad, IsPow2, Pow2;
    } else {
      hide Step, Enabled;
      OthersOnlyWake(s, l, w);
    }
  }

  /** A worker that is past its wait when `_running` is clear never sleeps again, whatever happens. */
  lemma {:induction false} StaysAwake(states: seq<State>, labels: seq<Label>, k: nat, w: nat)
    requires Path(states, labels) && k < |states| && Awake(states[0], w)
    ensures Awake(states[k], w)
  {
    hide Step, Enabled, Awake;
    if k > 0 {
      StaysAwake(states, labels, k - 1, w);
      AwakeStep(states[k - 1], labels[k - 1], w);
    }
  }

  lemma StoppingStep(s: State, l: Label)
    requires Shaped(s) && Enabled(s, l) && (s.stopper.NotStopping? || !s.running)
    ensures Step(s, l).stopper.NotStopping? || !Step(s, l).running
  {
    hide Free, QueueOfLoad, IsPow2, Pow2;
  }

  lemma {:induction false} StoppingMeansCleared(states: seq<State>, labels: seq<Label>, k: nat)
    requires Run(states, labels) && k < |states|
    ensures states[k].stopper.NotStopping? || !states[k].running
  {
    hide Step, Enabled;
    if k > 0 {
      StoppingMeansCleared(states, labels, k - 1);
      StoppingStep(states[k - 1], labels[k - 1]);
    }
  }

  /** What stop's notify of worker w does. */
  lemma FinalizeStep(s: State, w: nat)
    requires Shaped(s) && s.stopper == Finalizing(w) && w < |s.workers| && !s.running
    ensures Enabled(s, StopStep)
    ensures var s' := Step(s, StopStep);
      && Shaped(s') && w < |s'.workers| && !s'.running && s'.stopper == Waiting(w)
      && if s.workers[w].Blocking? then s'.workers[w].Blocking? else Awake(s', w)
  {
    hide IsPow2, Pow2;
    assert Enabled(s, StopStep);
    StepShaped(s, StopStep);
  }

  lemma BlockingSleeps(s: State, w: nat)
    requires Shaped(s) && w < |s.workers| && s.workers[w].Blocking?
    ensures CanSleep(s, w)
  {
    hide IsPow2, Pow2;
    var l := WorkerStep(w);
    assert Enabled(s, l);
    var states, labels := [s, Step(s, l)], [l];
    assert Path(states, labels) && states[0] == s && SleepsLast(states, w);
  }

  lemma AwakeCannotSleep(s: State, w: nat)
    requires Awake(s, w)
    ensures !CanSleep(s, w)
  {
    hide Step, Enabled, Awake;
    if CanSleep(s, w) {
      var states, labels :| Path(states, labels) && states[0] == s && SleepsLast(states, w);
      StaysAwake(states, labels, |labels|, w);
      AwakeIsNotBlocked(states[|labels|], w);
    }
  }

  lemma AwakeIsNotBlocked(s: State, w: nat)
    requires Awake(s, w)
    ensures w < |s.workers| && !s.workers[w].Blocked?
  {
  }

  /** In every run: after stop has notified worker w, w can still go to sleep if and only if it had decided to, seeing `_running` set, and was not yet asleep when notified. */
  lemma StopMissesWorkerIff(states: seq<State>, labels: seq<Label>, k: nat, w: nat)
    requires Run(states, labels) && k < |labels| && w < |states[0].queues|
    requires labels[k] == StopStep && states[k].stopper == Finalizing(w)
    ensures |states[k].workers| == |states[0].queues|
    ensures CanSleep(states[k + 1], w) <==> states[k].workers[w].Blocking?
  {
    hide Step, Enabled, CanSleep, Awake;
    RunShaped(states, labels, k);
    StoppingMeansCleared(states, labels, k);
    FinalizeStep(states[k], w);
    if states[k].workers[w].Blocking? {
      BlockingSleeps(states[k + 1], w);
    } else {
      AwakeCannotSleep(states[k + 1], w);
    }
  }

  /** What can still wake worker w: a spurious wakeup, or the notify of a load to its queue. */
  ghost predicate Wakes(s: State, l: Label, w: nat) {
    l == SpuriousWake(w) || (l.Submit? && l.k < |s.submitters| && s.submitters[l.k] == OweNotify(w))
  }

  ghost predicate Missed(s: State, w: nat) {
    w < |s.workers| && s.stopper == Waiting(w) && (s.workers[w].Blocking? || s.workers[w].Blocked?)
  }

  lemma MissedStep(s: State, l: Label, w: nat)
    requires Shaped(s) && Enabled(s, l) && Missed(s, w) && !Wakes(s, l, w)
    ensures Missed(Step(s, l), w)
  {
    hide Free, QueueOfLoad, IsPow2, Pow2;
    if l == WorkerStep(w) {
      assert s.workers[w].Blocking?;
    } else if l.Submit? {
      NotWaking(s, l.k, w);
    } else {
      assert !l.StopStep? && l != StealFails(w) && l != SpuriousWake(w);
    }
  }

  lemma NotWaking(s: State, k: nat, w: nat)
    requires Shaped(s) && k < |s.submitters| && w < |s.workers| && SubmitEnabled(s, k) && s.submitters[k] != OweNotify(w)
    ensures |SubmitNext(s, k).workers| == |s.workers|
    ensures SubmitNext(s, k).workers[w] == s.workers[w] && SubmitNext(s, k).stopper == s.stopper
  {
    hide Free, QueueOfLoad, IsPow2, Pow2;
  }

  /** Then stop does not return: it waits for w as long as neither a load to w's queue nor a spurious wakeup comes. */
  lemma {:induction false} StopWaitsForMissedWorker(states: seq<State>, labels: seq<Label>, k: nat, j: nat, w: nat)
    requires Run(states, labels) && k < j <= |labels| && w < |states[0].queues|
    requires labels[k] == StopStep && states[k].stopper == Finalizing(w)
    requires |states[k].workers| == |states[0].queues| && states[k].workers[w].Blocking?
    requires forall m :: k < m < j ==> !Wakes(states[m], labels[m], w)
    ensures Missed(states[j], w)
  {
    hide Step, Enabled, Wakes;
    if j == k + 1 {
      RunShaped(states, labels, k);
      StoppingMeansCleared(states, labels, k);
      FinalizeStep(states[k], w);
    } else {
      StopWaitsForMissedWorker(states, labels, k, j - 1, w);
      MissedStep(states[j - 1], labels[j - 1], w);
    }
  }

  // ---------- a run in which stop misses its worker ----------


  /** One worker, nobody loading. */
  function Lone(running: bool, worker: Worker, stopper: Stopper): State {
    State(running, 0, [[]], [worker], [], stopper, [], [[]], [[]])
  }

  lemma LoneShaped(running: bool, worker: Worker, stopper: Stopper)
    ensures Shaped(Lone(running, worker, stopper))
  {
    assert Pow2(0) == 1;
    Pow2Monotone(0, 31);
  }

  ghost predicate LoneStep(s: State, l: Label, s': State) {
    Shaped(s) && Enabled(s, l) && s' == Step(s, l)
  }

  lemma LoneFallsAsleep(running: bool, stopper: Stopper)
    ensures running ==> LoneStep(Lone(running, Looping, stopper), WorkerStep(0), Lone(running, Popping, stopper))
    ensures LoneStep(Lone(running, Popping, stopper), WorkerStep(0), Lone(running, Testing, stopper))
    ensures running ==> LoneStep(Lone(running, Testing, stopper), WorkerStep(0), Lone(running, Blocking, stopper))
    ensures LoneStep(Lone(running, Blocking, stopper), WorkerStep(0), Lone(running, Blocked, stopper))
  {
    hide IsPow2, Pow2;
    forall worker: Worker ensures Shaped(Lone(running, worker, stopper)) { LoneShaped(running, worker, stopper); }
  }

  lemma LoneIsStopped()
    ensures LoneStep(Lone(true, Blocking, NotStopping), StopStep, Lone(false, Blocking, Finalizing(0)))
    ensures LoneStep(Lone(false, Blocking, Finalizing(0)), StopStep, Lone(false, Blocking, Waiting(0)))
  {
    hide IsPow2, Pow2;
    LoneShaped(true, Blocking, NotStopping);
    LoneShaped(false, Blocking, Finalizing(0));
  }

  lemma LoneIsStuck()
    ensures var s := Lone(false, Blocked, Waiting(0));
      Shaped(s) && forall l: Label :: Enabled(s, l) ==> l.SpuriousWake?
  {
    hide IsPow2, Pow2;
    LoneShaped(false, Blocked, Waiting(0));
  }

  /** An instance: the worker saw `_running` set, stop cleared it and notified, and only then did the worker go to sleep. Nothing but a spurious wakeup can happen then. */
  lemma StopCanMissItsWorker() returns (states: seq<State>, labels: seq<Label>)
    ensures Run(states, labels)
    ensures var last := states[|labels|];
      && Shaped(last) && !last.running && last.workers[0].Blocked?
      && forall l: Label :: Enabled(last, l) ==> l.SpuriousWake?
  {
    hide Step, Enabled, Shaped;
    LoneShaped(true, Looping, NotStopping);
    LoneFallsAsleep(true, NotStopping);
    LoneIsStopped();
    LoneFallsAsleep(false, Waiting(0));
    LoneIsStuck();
    states := [
      Lone(true, Looping, NotStopping),
      Lone(true, Popping, NotStopping),
      Lone(true, Testing, NotStopping),
      Lone(true, Blocking, NotStopping),
      Lone(false, Blocking, Finalizing(0)),
      Lone(false, Blocking, Waiting(0)),
      Lone(false, Blocked, Waiting(0))];
    labels := [WorkerStep(0), WorkerStep(0), WorkerStep(0), StopStep, StopStep, WorkerStep(0)];
    forall k | 0 <= k < |labels|
      ensures LoneStep(states[k], labels[k], states[k + 1])
    {
    }
  }
}

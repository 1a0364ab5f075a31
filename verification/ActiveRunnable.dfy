/** The active object: one worker thread, callers of `notify`, and `stop`, as interleaved steps around one mutex and condition variable. */
module ActiveRunnable {
  import opened Wrappers

  /** A queued task: its data and the number of its promise. */
  datatype Task<D> = Task(data: D, promise: nat)

  datatype Worker<D, R> =
    | Testing
    | Locking
    | Inside
    | Waiting
    | Woken
    | Ready
    | Working(task: Task<D>)
    | Fulfilling(task: Task<D>, result: R)
    | Exited
    | IndexedEmpty

  /** Who holds the mutex; a notifier holds it between its push and its notify, a stopper between its store and its notify. */
  datatype Holder = Nobody | TheWorker | Notifier | Stopper

  /** `notified` and `worked` record the data handed to `notify` and to `__work`, in order. */
  datatype State<D, R> = State(
    running: bool,
    holder: Holder,
    tasks: seq<Task<D>>,
    worker: Worker<D, R>,
    promises: seq<Option<R>>,
    notified: seq<D>,
    worked: seq<D>)

  datatype Label<D> = WorkerStep | SpuriousWake | NotifyPushes(data: D) | StopStores | Notifies

  predicate Enabled<D, R>(s: State<D, R>, l: Label<D>) {
    match l
    case WorkerStep =>
      (match s.worker
       case Locking => s.holder.Nobody?
       case Woken => s.holder.Nobody?
       case Waiting => false
       case Exited => false
       case IndexedEmpty => false
       case Fulfilling(task, _) => task.promise < |s.promises|
       case _ => true)
    case SpuriousWake => s.worker.Waiting?
    case NotifyPushes(_) => s.holder.Nobody?
    case StopStores => s.holder.Nobody?
    case Notifies => s.holder.Notifier? || s.holder.Stopper?
  }

  function WorkerNext<D, R>(s: State<D, R>, work: D -> R): State<D, R>
    requires Enabled(s, WorkerStep)
  {
    match s.worker
    case Testing => s.(worker := if s.running then Locking else Exited)
    case Locking => s.(worker := Inside, holder := TheWorker)
    case Inside => if s.tasks == [] then s.(worker := Waiting, holder := Nobody) else s.(worker := Ready)
    case Woken => s.(worker := Ready, holder := TheWorker)
    case Ready =>
      if !s.running then s.(worker := Exited, holder := Nobody)
      else if s.tasks == [] then s.(worker := IndexedEmpty)
      else s.(worker := Working(s.tasks[0]), tasks := s.tasks[1..], holder := Nobody)
    case Working(task) => s.(worker := Fulfilling(task, work(task.data)), worked := s.worked + [task.data])
    case Fulfilling(task, result) => s.(worker := Testing, promises := s.promises[task.promise := Some(result)])
  }

  function Step<D, R>(s: State<D, R>, l: Label<D>, work: D -> R): State<D, R>
    requires Enabled(s, l)
  {
    match l
    case WorkerStep => WorkerNext(s, work)
    case SpuriousWake => s.(worker := Woken)
    case NotifyPushes(data) =>
      s.(holder := Notifier,
         tasks := s.tasks + [Task(data, |s.promises|)],
         promises := s.promises + [None],
         notified := s.notified + [data])
    case StopStores => s.(holder := Stopper, running := false)
    case Notifies => s.(holder := Nobody, worker := if s.worker.Waiting? then Woken else s.worker)
  }

  /** Just after `run`. */
  ghost predicate Init<D, R>(s: State<D, R>) {
    s.running && s.holder.Nobody? && s.tasks == [] && s.worker.Testing? && s.promises == [] && s.notified == [] && s.worked == []
  }

  ghost predicate Run<D, R>(states: seq<State<D, R>>, labels: seq<Label<D>>, work: D -> R) {
    && |states| == |labels| + 1
    && Init(states[0])
    && forall k :: 0 <= k < |labels| ==> Enabled(states[k], labels[k]) && states[k + 1] == Step(states[k], labels[k], work)
  }

  predicate NoSpuriousWake<D>(labels: seq<Label<D>>) {
    forall k :: 0 <= k < |labels| ==> !labels[k].SpuriousWake?
  }

  // ---------- with or without spurious wakeups ----------

  /** How many tasks have left the queue. */
  function Taken<D, R>(s: State<D, R>): int {
    |s.notified| - |s.tasks|
  }

  /** How many promises have been set. */
  function Fulfilled<D, R>(s: State<D, R>): int {
    Taken(s) - if s.worker.Working? || s.worker.Fulfilling? then 1 else 0
  }

  ghost predicate QueueInOrder<D, R>(s: State<D, R>) {
    && |s.promises| == |s.notified| && Taken(s) >= 0
    && forall i :: 0 <= i < |s.tasks| ==> s.tasks[i] == Task(s.notified[Taken(s) + i], Taken(s) + i)
  }

  ghost predicate HandInOrder<D, R>(s: State<D, R>, work: D -> R)
    requires QueueInOrder(s)
  {
    && (s.worker.Working? || s.worker.Fulfilling? ==>
          Taken(s) >= 1 && s.worker.task == Task(s.notified[Taken(s) - 1], Taken(s) - 1))
    && (s.worker.Fulfilling? ==> s.worker.result == work(s.worker.task.data))
  }

  ghost predicate WorkInOrder<D, R>(s: State<D, R>)
    requires QueueInOrder(s)
  {
    |s.worked| == Taken(s) - (if s.worker.Working? then 1 else 0) && s.worked <= s.notified
  }

  ghost predicate PromisesInOrder<D, R>(s: State<D, R>, work: D -> R)
    requires QueueInOrder(s)
  {
    forall i :: 0 <= i < |s.promises| ==> s.promises[i] == if i < Fulfilled(s) then Some(work(s.notified[i])) else None
  }

  /** Queue, work log and promises all follow the notify order. */
  ghost predicate InOrder<D, R>(s: State<D, R>, work: D -> R) {
    QueueInOrder(s) && HandInOrder(s, work) && WorkInOrder(s) && PromisesInOrder(s, work)
  }

  lemma NotifyInOrder<D, R>(s: State<D, R>, data: D, work: D -> R)
    requires InOrder(s, work) && Enabled(s, NotifyPushes(data))
    ensures InOrder(Step(s, NotifyPushes(data), work), work)
  {
    var s' := Step(s, NotifyPushes(data), work);
    assert Taken(s') == Taken(s);
    assert QueueInOrder(s');
  }

  lemma TakeInOrder<D, R>(s: State<D, R>, work: D -> R)
    requires InOrder(s, work) && s.worker.Ready? && s.running && s.tasks != []
    ensures InOrder(WorkerNext(s, work), work)
  {
    var s' := WorkerNext(s, work);
    assert s.tasks[0] == Task(s.notified[Taken(s)], Taken(s));
    assert Taken(s') == Taken(s) + 1 && Fulfilled(s') == Fulfilled(s);
    assert QueueInOrder(s');
  }

  lemma WorkingInOrder<D, R>(s: State<D, R>, work: D -> R)
    requires InOrder(s, work) && s.worker.Working?
    ensures InOrder(WorkerNext(s, work), work)
  {
    var s' := WorkerNext(s, work);
    assert Taken(s') == Taken(s) && Fulfilled(s') == Fulfilled(s);
    assert QueueInOrder(s');
    assert s'.worked == s.notified[..Taken(s)];
  }

  lemma FulfillingInOrder<D, R>(s: State<D, R>, work: D -> R)
    requires InOrder(s, work) && s.worker.Fulfilling? && Enabled(s, WorkerStep)
    ensures InOrder(WorkerNext(s, work), work)
  {
    var s' := WorkerNext(s, work);
    assert Taken(s') == Taken(s) && Fulfilled(s') == Fulfilled(s) + 1 && s.worker.task.promise == Fulfilled(s);
    assert QueueInOrder(s');
  }

  /** Steps that leave queue, log and promises alone, with empty hands before and after. */
  lemma SameInOrder<D, R>(s: State<D, R>, s': State<D, R>, work: D -> R)
    requires InOrder(s, work) && s'.tasks == s.tasks && s'.promises == s.promises && s'.notified == s.notified && s'.worked == s.worked
    requires !s.worker.Working? && !s.worker.Fulfilling? && !s'.worker.Working? && !s'.worker.Fulfilling?
    ensures InOrder(s', work)
  {
    assert Taken(s') == Taken(s) && Fulfilled(s') == Fulfilled(s);
  }

  lemma WorkerInOrder<D, R>(s: State<D, R>, work: D -> R)
    requires InOrder(s, work) && Enabled(s, WorkerStep)
    ensures InOrder(WorkerNext(s, work), work)
  {
    hide InOrder;
    if s.worker.Ready? && s.running && s.tasks != [] {
      TakeInOrder(s, work);
    } else if s.worker.Working? {
      WorkingInOrder(s, work);
    } else if s.worker.Fulfilling? {
      FulfillingInOrder(s, work);
    } else {
      SameInOrder(s, WorkerNext(s, work), work);
    }
  }

  lemma InOrderStep<D, R>(s: State<D, R>, l: Label<D>, work: D -> R)
    requires InOrder(s, work) && Enabled(s, l)
    ensures InOrder(Step(s, l, work), work)
  {
    if l.WorkerStep? {
      WorkerInOrder(s, work);
    } else if l.NotifyPushes? {
      NotifyInOrder(s, l.data, work);
    }
  }

  lemma {:induction false} RunInOrder<D, R>(states: seq<State<D, R>>, labels: seq<Label<D>>, work: D -> R, k: nat)
    requires Run(states, labels, work) && k < |states|
    ensures InOrder(states[k], work)
  {
    if k > 0 {
      RunInOrder(states, labels, work, k - 1);
      InOrderStep(states[k - 1], labels[k - 1], work);
    }
  }

  /** What has been worked on is always a prefix of what was notified, in that order. */
  lemma WorkFollowsNotifyOrder<D, R>(states: seq<State<D, R>>, labels: seq<Label<D>>, work: D -> R, k: nat)
    requires Run(states, labels, work) && k < |states|
    ensures states[k].worked <= states[k].notified
  {
    RunInOrder(states, labels, work, k);
  }

  /** A promise that is set holds the result for its own notify's data, and setting finds it unset: it happens at most once. */
  lemma PromisesSetOnce<D, R>(states: seq<State<D, R>>, labels: seq<Label<D>>, work: D -> R, k: nat, i: nat)
    requires Run(states, labels, work) && k < |states| && i < |states[k].promises|
    ensures |states[k].promises| == |states[k].notified|
    ensures states[k].promises[i] == None || states[k].promises[i] == Some(work(states[k].notified[i]))
    ensures states[k].worker.Fulfilling? ==>
      states[k].worker.task.promise < |states[k].promises| && states[k].promises[states[k].worker.task.promise] == None
  {
    RunInOrder(states, labels, work, k);
  }

  // ---------- without spurious wakeups ----------

  /** The worker sleeps only on an empty queue, and comes past the wait only with a task or to stop. */
  ghost predicate WakesForReason<D, R>(s: State<D, R>) {
    && (s.holder.TheWorker? <==> s.worker.Inside? || s.worker.Ready?)
    && (s.worker.Waiting? ==> s.tasks == [] || s.holder.Notifier?)
    && (s.worker.Woken? || s.worker.Ready? ==> s.tasks != [] || !s.running)
    && (s.holder.Notifier? && s.worker.Waiting? ==> s.tasks != [])
    && (s.holder.Stopper? ==> !s.running)
    && !s.worker.IndexedEmpty?
  }

  lemma WakesForReasonStep<D, R>(s: State<D, R>, l: Label<D>, work: D -> R)
    requires WakesForReason(s) && Enabled(s, l) && !l.SpuriousWake?
    ensures WakesForReason(Step(s, l, work))
  {
  }

  lemma {:induction false} RunWakesForReason<D, R>(states: seq<State<D, R>>, labels: seq<Label<D>>, work: D -> R, k: nat)
    requires Run(states, labels, work) && NoSpuriousWake(labels) && k < |states|
    ensures WakesForReason(states[k])
  {
    if k > 0 {
      RunWakesForReason(states, labels, work, k - 1);
      WakesForReasonStep(states[k - 1], labels[k - 1], work);
    }
  }

  /** Without spurious wakeups the worker never indexes an empty vector, and when it sleeps with no wake-up pending there is no task. */
  lemma NeverIndexesEmpty<D, R>(states: seq<State<D, R>>, labels: seq<Label<D>>, work: D -> R, k: nat)
    requires Run(states, labels, work) && NoSpuriousWake(labels) && k < |states|
    ensures !states[k].worker.IndexedEmpty?
    ensures states[k].worker.Waiting? && !states[k].holder.Notifier? ==> states[k].tasks == []
  {
    RunWakesForReason(states, labels, work, k);
  }

  /** The wait is guarded by `if`, not by a loop: a run in which one spurious wakeup makes the worker index an empty vector. */
  lemma SpuriousWakeIndexesEmpty<D, R>(work: D -> R) returns (states: seq<State<D, R>>, labels: seq<Label<D>>)
    ensures Run(states, labels, work) && states[|labels|].worker.IndexedEmpty?
    ensures forall k :: 0 <= k < |labels| ==> labels[k].WorkerStep? || labels[k].SpuriousWake?
  {
    var s0: State<D, R> := State(true, Nobody, [], Testing, [], [], []);
    var s1 := s0.(worker := Locking);
    var s2 := s0.(worker := Inside, holder := TheWorker);
    var s3 := s0.(worker := Waiting);
    var s4 := s0.(worker := Woken);
    var s5 := s0.(worker := Ready, holder := TheWorker);
    var s6 := s5.(worker := IndexedEmpty);
    states := [s0, s1, s2, s3, s4, s5, s6];
    labels := [WorkerStep, WorkerStep, WorkerStep, SpuriousWake, WorkerStep, WorkerStep];
  }

  // ---------- when stop misses the worker ----------

  /** Joined steps from any state. */
  ghost predicate Path<D, R>(states: seq<State<D, R>>, labels: seq<Label<D>>, work: D -> R) {
    && |states| == |labels| + 1
    && forall k :: 0 <= k < |labels| ==> Enabled(states[k], labels[k]) && states[k + 1] == Step(states[k], labels[k], work)
  }

  ghost predicate WaitsLast<D, R>(states: seq<State<D, R>>) {
    states != [] && states[|states| - 1].worker.Waiting?
  }

  /** Some continuation lets the worker wait. */
  ghost predicate CanWait<D(!new), R(!new)>(s: State<D, R>, work: D -> R) {
    exists states, labels :: Path(states, labels, work) && states[0] == s && WaitsLast(states)
  }

  /** With or without spurious wakeups: who can hold the mutex, and what a stopper or notifier holding it has done. */
  ghost predicate HoldersOk<D, R>(s: State<D, R>) {
    && (s.holder.TheWorker? <==> s.worker.Inside? || s.worker.Ready? || s.worker.IndexedEmpty?)
    && (s.holder.Stopper? ==> !s.running)
    && (s.holder.Notifier? ==> s.tasks != [])
  }

  lemma HoldersOkStep<D, R>(s: State<D, R>, l: Label<D>, work: D -> R)
    requires HoldersOk(s) && Enabled(s, l)
    ensures HoldersOk(Step(s, l, work))
  {
  }

  lemma {:induction false} RunHoldersOk<D, R>(states: seq<State<D, R>>, labels: seq<Label<D>>, work: D -> R, k: nat)
    requires Run(states, labels, work) && k < |states|
    ensures HoldersOk(states[k])
  {
    if k > 0 {
      RunHoldersOk(states, labels, work, k - 1);
      HoldersOkStep(states[k - 1], labels[k - 1], work);
    }
  }

  /** Stopped, not waiting, and not on the way to the wait with an empty queue. */
  ghost predicate PastWait<D, R>(s: State<D, R>) {
    !s.running && !s.worker.Waiting? && (s.worker.Locking? || s.worker.Inside? ==> s.tasks != [])
  }

  lemma PastWaitStep<D, R>(s: State<D, R>, l: Label<D>, work: D -> R)
    requires PastWait(s) && Enabled(s, l)
    ensures PastWait(Step(s, l, work))
  {
  }

  lemma {:induction false} StaysPastWait<D, R>(states: seq<State<D, R>>, labels: seq<Label<D>>, work: D -> R, k: nat)
    requires Path(states, labels, work) && k < |states| && PastWait(states[0])
    ensures PastWait(states[k])
  {
    if k > 0 {
      StaysPastWait(states, labels, work, k - 1);
      PastWaitStep(states[k - 1], labels[k - 1], work);
    }
  }

  lemma PastWaitNeverWaits<D(!new), R(!new)>(s: State<D, R>, work: D -> R)
    requires PastWait(s)
    ensures !CanWait(s, work)
  {
    if CanWait(s, work) {
      var states, labels :| Path(states, labels, work) && states[0] == s && WaitsLast(states);
      StaysPastWait(states, labels, work, |labels|);
    }
  }

  lemma LockingWaits<D(!new), R(!new)>(s: State<D, R>, work: D -> R)
    requires s.worker.Locking? && s.tasks == [] && s.holder.Nobody?
    ensures CanWait(s, work)
  {
    var s1 := Step(s, WorkerStep, work);
    var s2 := Step(s1, WorkerStep, work);
    var states, labels: seq<Label<D>> := [s, s1, s2], [WorkerStep, WorkerStep];
    assert Path(states, labels, work) && states[0] == s && WaitsLast(states);
  }

  /** In every run: after stop's notify the worker can still come to wait if and only if it had seen `_running` set, did not hold the mutex yet and there was no task. */
  lemma StopMissesTheWorkerIff<D(!new), R(!new)>(states: seq<State<D, R>>, labels: seq<Label<D>>, work: D -> R, k: nat)
    requires Run(states, labels, work) && k < |labels|
    requires labels[k] == Notifies && states[k].holder.Stopper?
    ensures CanWait(states[k + 1], work) <==> states[k].worker.Locking? && states[k].tasks == []
  {
    hide CanWait;
    RunHoldersOk(states, labels, work, k);
    if states[k].worker.Locking? && states[k].tasks == [] {
      LockingWaits(states[k + 1], work);
    } else {
      PastWaitNeverWaits(states[k + 1], work);
    }
  }

  /** A worker that stop missed: on its way to the wait, or waiting, with no task. */
  ghost predicate Missed<D, R>(s: State<D, R>) {
    && !s.running && s.tasks == [] && (s.holder.Nobody? || s.holder.TheWorker?)
    && (s.worker.Locking? || s.worker.Inside? || s.worker.Waiting?)
  }

  /** Such a worker does not exit as long as no notify, no further stop and no spurious wakeup comes. */
  lemma {:induction false} MissedWorkerStays<D, R>(states: seq<State<D, R>>, labels: seq<Label<D>>, work: D -> R, k: nat, j: nat)
    requires Run(states, labels, work) && k < j <= |labels|
    requires labels[k] == Notifies && states[k].holder.Stopper? && states[k].worker.Locking? && states[k].tasks == []
    requires forall m :: k < m < j ==> labels[m].WorkerStep? || labels[m].Notifies?
    ensures Missed(states[j])
  {
    if j == k + 1 {
      RunHoldersOk(states, labels, work, k);
    } else {
      MissedWorkerStays(states, labels, work, k, j - 1);
    }
  }

  /** An instance, after which nothing but a new notify, another stop or a spurious wakeup can follow. */
  lemma StopCanMissTheWorker<D, R>(work: D -> R) returns (states: seq<State<D, R>>, labels: seq<Label<D>>)
    ensures Run(states, labels, work) && NoSpuriousWake(labels)
    ensures var last := states[|labels|];
      last.worker.Waiting? && !last.running && last.holder.Nobody? && !Enabled(last, WorkerStep) && !Enabled(last, Notifies)
  {
    var s0: State<D, R> := State(true, Nobody, [], Testing, [], [], []);
    var s1 := s0.(worker := Locking);
    var s2 := s1.(running := false, holder := Stopper);
    var s3 := s1.(running := false);
    var s4 := s3.(worker := Inside, holder := TheWorker);
    var s5 := s3.(worker := Waiting);
    states := [s0, s1, s2, s3, s4, s5];
    labels := [WorkerStep, StopStores, Notifies, WorkerStep, WorkerStep];
  }

  // ---------- when a spurious wakeup is fatal ----------

  ghost predicate IndexesEmptyLast<D, R>(states: seq<State<D, R>>) {
    states != [] && states[|states| - 1].worker.IndexedEmpty?
  }

  /** Some continuation without further spurious wakeups makes the worker index an empty vector. */
  ghost predicate CanIndexEmpty<D(!new), R(!new)>(s: State<D, R>, work: D -> R) {
    exists states, labels ::
      Path(states, labels, work) && NoSpuriousWake(labels) && states[0] == s && IndexesEmptyLast(states)
  }

  lemma {:induction false} StaysReasonable<D, R>(states: seq<State<D, R>>, labels: seq<Label<D>>, work: D -> R, k: nat)
    requires Path(states, labels, work) && NoSpuriousWake(labels) && k < |states| && WakesForReason(states[0])
    ensures WakesForReason(states[k])
  {
    if k > 0 {
      StaysReasonable(states, labels, work, k - 1);
      WakesForReasonStep(states[k - 1], labels[k - 1], work);
    }
  }

  lemma ReasonableNeverIndexesEmpty<D(!new), R(!new)>(s: State<D, R>, work: D -> R)
    requires WakesForReason(s)
    ensures !CanIndexEmpty(s, work)
  {
    if CanIndexEmpty(s, work) {
      var states, labels :|
        Path(states, labels, work) && NoSpuriousWake(labels) && states[0] == s && IndexesEmptyLast(states);
      StaysReasonable(states, labels, work, |labels|);
    }
  }

  lemma WokenIndexesEmpty<D(!new), R(!new)>(s: State<D, R>, work: D -> R)
    requires s.worker.Woken? && s.tasks == [] && s.running && s.holder.Nobody?
    ensures CanIndexEmpty(s, work)
  {
    var s1 := Step(s, WorkerStep, work);
    var s2 := Step(s1, WorkerStep, work);
    var states, labels: seq<Label<D>> := [s, s1, s2], [WorkerStep, WorkerStep];
    assert Path(states, labels, work) && NoSpuriousWake(labels) && states[0] == s && IndexesEmptyLast(states);
  }

  /** In every run: a spurious wakeup can make the worker index an empty vector if and only if it comes while running and without a task. */
  lemma SpuriousWakeFatalIff<D(!new), R(!new)>(states: seq<State<D, R>>, labels: seq<Label<D>>, work: D -> R, k: nat)
    requires Run(states, labels, work) && k < |labels| && labels[k] == SpuriousWake
    ensures CanIndexEmpty(states[k + 1], work) <==> states[k].running && states[k].tasks == []
  {
    hide CanIndexEmpty;
    RunHoldersOk(states, labels, work, k);
    if states[k].running && states[k].tasks == [] {
      WokenIndexesEmpty(states[k + 1], work);
    } else {
      ReasonableNeverIndexesEmpty(states[k + 1], work);
    }
  }
}

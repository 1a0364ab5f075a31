/**
 The work-stealing executor: submitters, workers and a stopping thread as interleaved steps. A task is named by
 the number of its `load`. A queue's mutex is held by whoever is inside its critical section; entering needs it free.
 */
module Executor {
  import opened Bits
  import opened RoundRobin
  import opened Wrappers
  import Q = WorkQueue

  type Task = nat

  /** Where a worker is in its loop; queue q belongs to worker q. */
  datatype Worker =
    | Looping
    | Popping
    | Testing
    | Blocking
    | Blocked
    | Taking
    | RunningOwn(task: Task)
    | Checking
    | Scanning(i: nat)
    | Stealing(i: nat)
    | RunningStolen(task: Task)
    | Exited

  /** Where a thread that loads tasks is inside `load`. */
  datatype Submitter = Away | Holding(task: Task) | Inside(task: Task) | OweNotify(queue: nat)

  datatype Stopper = NotStopping | Finalizing(i: nat) | Waiting(i: nat) | Stopped

  /** `pushed` and `ownTaken` record what entered each queue and what its own worker took, in order. */
  datatype State = State(
    running: bool,
    loads: nat,
    queues: seq<seq<Task>>,
    workers: seq<Worker>,
    submitters: seq<Submitter>,
    stopper: Stopper,
    finished: seq<Task>,
    pushed: seq<seq<Task>>,
    ownTaken: seq<seq<Task>>)

  datatype Label =
    | WorkerStep(w: nat)
    | StealFails(w: nat)
    | SpuriousWake(w: nat)
    | Submit(k: nat)
    | StopStep

  ghost predicate Shaped(s: State) {
    && IsPow2(|s.queues|) && |s.queues| <= Pow2(31)
    && |s.workers| == |s.pushed| == |s.ownTaken| == |s.queues| > 0
  }

  function QueueOf(s: State, task: Task): nat
    requires |s.queues| > 0
  {
    QueueOfLoad(task, |s.queues|)
  }

  lemma QueueOfInRange(s: State, task: Task)
    requires Shaped(s)
    ensures QueueOf(s, task) < |s.queues|
  {
    var k: nat :| |s.queues| == Pow2(k);
    if k > 31 { Pow2StrictlyMonotone(31, k); }
    MaskedCounter(task, k);
  }

  predicate WorkerInside(worker: Worker) {
    worker.Testing? || worker.Blocking? || worker.Taking?
  }

  ghost predicate SubmitterInside(s: State, k: nat, q: nat)
    requires k < |s.submitters| && |s.queues| > 0
  {
    s.submitters[k].Inside? && QueueOf(s, s.submitters[k].task) == q
  }

  /** The mutex of queue q is free. */
  ghost predicate Free(s: State, q: nat)
    requires Shaped(s) && q < |s.queues|
  {
    && !WorkerInside(s.workers[q])
    && forall k :: 0 <= k < |s.submitters| ==> !SubmitterInside(s, k, q)
  }

  /** The queue a stealing worker has its eye on. */
  function Target(s: State, w: nat): nat
    requires w < |s.workers| && s.workers[w].Stealing? && |s.queues| > 0
  {
    ScanTarget(w, s.workers[w].i, |s.queues|)
  }

  ghost predicate WorkerEnabled(s: State, w: nat)
    requires Shaped(s) && w < |s.workers|
  {
    match s.workers[w]
    case Popping => Free(s, w)
    case Checking => Free(s, w)
    case Stealing(_) => Target(s, w) < |s.queues| && Free(s, Target(s, w)) && s.queues[Target(s, w)] != []
    case Blocked => false
    case Exited => false
    case _ => true
  }

  ghost predicate SubmitEnabled(s: State, k: nat)
    requires Shaped(s) && k < |s.submitters|
  {
    match s.submitters[k]
    case Holding(task) => QueueOf(s, task) < |s.queues| && Free(s, QueueOf(s, task))
    case Inside(task) => QueueOf(s, task) < |s.queues|
    case OweNotify(q) => q < |s.queues|
    case Away => true
  }

  predicate StopEnabled(s: State) {
    match s.stopper
    case NotStopping => s.running
    case Finalizing(_) => true
    case Waiting(i) => i < |s.workers| && s.workers[i].Exited?
    case Stopped => false
  }

  ghost predicate Enabled(s: State, l: Label)
    requires Shaped(s)
  {
    match l
    case WorkerStep(w) => w < |s.workers| && WorkerEnabled(s, w)
    case StealFails(w) => w < |s.workers| && s.workers[w].Stealing?
    case SpuriousWake(w) => w < |s.workers| && s.workers[w].Blocked?
    case Submit(k) => k < |s.submitters| && SubmitEnabled(s, k)
    case StopStep => StopEnabled(s)
  }

  function Move(s: State, w: nat, worker: Worker): State
    requires w < |s.workers|
  {
    s.(workers := s.workers[w := worker])
  }

  /** A notify wakes the queue's worker if it is waiting. */
  function Woken(s: State, q: nat): State
    requires q < |s.workers|
  {
    if s.workers[q].Blocked? then Move(s, q, Popping) else s
  }

  ghost function WorkerNext(s: State, w: nat): State
    requires Shaped(s) && w < |s.workers| && WorkerEnabled(s, w)
  {
    var queue := s.queues[w];
    match s.workers[w]
    case Looping => Move(s, w, if s.running then Popping else Exited)
    case Popping => Move(s, w, Testing)
    case Testing => Move(s, w, if queue != [] || !s.running then Taking else Blocking)
    case Blocking => Move(s, w, Blocked)
    case Taking =>
      var (front, rest) := Q.Front(queue);
      if front.None? then Move(s, w, Checking)
      else Move(s, w, RunningOwn(front.value)).(
        queues := s.queues[w := rest], ownTaken := s.ownTaken[w := s.ownTaken[w] + [front.value]])
    case RunningOwn(task) => Move(s, w, Checking).(finished := s.finished + [task])
    case Checking => Move(s, w, if queue == [] then Scanning(1) else Looping)
    case Scanning(i) => Move(s, w, if i >= |s.queues| || !s.running then Looping else Stealing(i))
    case Stealing(_) =>
      var (back, rest) := Q.Back(s.queues[Target(s, w)]);
      Move(s, w, RunningStolen(back.value)).(queues := s.queues[Target(s, w) := rest])
    case RunningStolen(task) => Move(s, w, Looping).(finished := s.finished + [task])
  }

  function Put(s: State, k: nat, submitter: Submitter): State
    requires k < |s.submitters|
  {
    s.(submitters := s.submitters[k := submitter])
  }

  ghost function SubmitNext(s: State, k: nat): State
    requires Shaped(s) && k < |s.submitters| && SubmitEnabled(s, k)
  {
    match s.submitters[k]
    case Away => Put(s, k, Holding(s.loads)).(loads := s.loads + 1)
    case Holding(task) => Put(s, k, Inside(task))
    case Inside(task) =>
      var q := QueueOf(s, task);
      Put(s, k, OweNotify(q)).(queues := s.queues[q := s.queues[q] + [task]], pushed := s.pushed[q := s.pushed[q] + [task]])
    case OweNotify(q) => Woken(Put(s, k, Away), q)
  }

  function StopNext(s: State): State
    requires StopEnabled(s)
  {
    match s.stopper
    case NotStopping => s.(running := false, stopper := Finalizing(0))
    case Finalizing(i) => if i < |s.workers| then Woken(s, i).(stopper := Waiting(i)) else s.(stopper := Stopped)
    case Waiting(i) => s.(stopper := Finalizing(i + 1))
  }

  ghost function Step(s: State, l: Label): State
    requires Shaped(s) && Enabled(s, l)
  {
    match l
    case WorkerStep(w) => WorkerNext(s, w)
    case StealFails(w) => Move(s, w, Scanning(s.workers[w].i + 1))
    case SpuriousWake(w) => Move(s, w, Popping)
    case Submit(k) => SubmitNext(s, k)
    case StopStep => StopNext(s)
  }

  ghost predicate Init(s: State) {
    && Shaped(s)
    && s.running && s.loads == 0 && s.stopper == NotStopping && s.finished == []
    && (forall q :: 0 <= q < |s.queues| ==> s.queues[q] == [] && s.pushed[q] == [] && s.ownTaken[q] == [] && s.workers[q] == Looping)
    && (forall k :: 0 <= k < |s.submitters| ==> s.submitters[k] == Away)
  }

  ghost predicate Run(states: seq<State>, labels: seq<Label>) {
    && |states| == |labels| + 1
    && Init(states[0])
    && forall k :: 0 <= k < |labels| ==>
         Shaped(states[k]) && Enabled(states[k], labels[k]) && states[k + 1] == Step(states[k], labels[k])
  }

  /** Joined steps from any state. */
  ghost predicate Path(states: seq<State>, labels: seq<Label>) {
    && |states| == |labels| + 1
    && Shaped(states[0])
    && forall k :: 0 <= k < |labels| ==>
         Shaped(states[k]) && Enabled(states[k], labels[k]) && states[k + 1] == Step(states[k], labels[k])
  }

  lemma StepShaped(s: State, l: Label)
    requires Shaped(s) && Enabled(s, l)
    ensures Shaped(Step(s, l)) && |Step(s, l).queues| == |s.queues| && |Step(s, l).submitters| == |s.submitters|
  {
    hide IsPow2, Pow2, QueueOfLoad;
  }

  lemma {:induction false} RunShaped(states: seq<State>, labels: seq<Label>, k: nat)
    requires Run(states, labels) && k < |states|
    ensures Shaped(states[k]) && |states[k].queues| == |states[0].queues| && |states[k].submitters| == |states[0].submitters|
  {
    hide Step, Enabled, Shaped;
    if k > 0 {
      RunShaped(states, labels, k - 1);
      StepShaped(states[k - 1], labels[k - 1]);
    }
  }
}

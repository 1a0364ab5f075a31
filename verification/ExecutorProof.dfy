/** What every run of the executor keeps: tasks are neither lost nor run twice, order, stopping, waking. */
module ExecutorProof {
  import opened Bits
  import opened Counting
  import opened Executor
  import opened RoundRobin

  // ---------- each task in exactly one place ----------

  function HeldBy(submitter: Submitter, t: Task): nat {
    match submitter
    case Holding(task) => Times(task, t)
    case Inside(task) => Times(task, t)
    case _ => 0
  }

  function InHand(worker: Worker, t: Task): nat {
    match worker
    case RunningOwn(task) => Times(task, t)
    case RunningStolen(task) => Times(task, t)
    case _ => 0
  }

  function SubmitterCounts(submitters: seq<Submitter>, t: Task): (r: seq<nat>)
    ensures |r| == |submitters| && forall k :: 0 <= k < |r| ==> r[k] == HeldBy(submitters[k], t)
  {
    seq(|submitters|, k requires 0 <= k < |submitters| => HeldBy(submitters[k], t))
  }

  function QueueCounts(queues: seq<seq<Task>>, t: Task): (r: seq<nat>)
    ensures |r| == |queues| && forall q :: 0 <= q < |r| ==> r[q] == Count(queues[q], t)
  {
    seq(|queues|, q requires 0 <= q < |queues| => Count(queues[q], t))
  }

  function HandCounts(workers: seq<Worker>, t: Task): (r: seq<nat>)
    ensures |r| == |workers| && forall w :: 0 <= w < |r| ==> r[w] == InHand(workers[w], t)
  {
    seq(|workers|, w requires 0 <= w < |workers| => InHand(workers[w], t))
  }

  /** In how many places a task is: a submitter's hand, a queue, a worker's hand, or among the finished runs. */
  function Places(s: State, t: Task): nat {
    Total(SubmitterCounts(s.submitters, t)) + Total(QueueCounts(s.queues, t)) + Total(HandCounts(s.workers, t)) + Count(s.finished, t)
  }

  lemma SubmittersUpdate(submitters: seq<Submitter>, k: nat, p: Submitter, t: Task)
    requires k < |submitters|
    ensures Total(SubmitterCounts(submitters[k := p], t)) + HeldBy(submitters[k], t)
         == Total(SubmitterCounts(submitters, t)) + HeldBy(p, t)
  {
    TotalUpdate(SubmitterCounts(submitters, t), k, HeldBy(p, t));
    assert SubmitterCounts(submitters[k := p], t) == SubmitterCounts(submitters, t)[k := HeldBy(p, t)];
  }

  lemma QueuesUpdate(queues: seq<seq<Task>>, q: nat, queue: seq<Task>, t: Task)
    requires q < |queues|
    ensures Total(QueueCounts(queues[q := queue], t)) + Count(queues[q], t) == Total(QueueCounts(queues, t)) + Count(queue, t)
  {
    TotalUpdate(QueueCounts(queues, t), q, Count(queue, t));
    assert QueueCounts(queues[q := queue], t) == QueueCounts(queues, t)[q := Count(queue, t)];
  }

  lemma HandsUpdate(workers: seq<Worker>, w: nat, p: Worker, t: Task)
    requires w < |workers|
    ensures Total(HandCounts(workers[w := p], t)) + InHand(workers[w], t) == Total(HandCounts(workers, t)) + InHand(p, t)
  {
    TotalUpdate(HandCounts(workers, t), w, InHand(p, t));
    assert HandCounts(workers[w := p], t) == HandCounts(workers, t)[w := InHand(p, t)];
  }

  lemma TakingPlaces(s: State, w: nat, t: Task)
    requires Shaped(s) && w < |s.workers| && WorkerEnabled(s, w) && s.workers[w].Taking?
    ensures Places(WorkerNext(s, w), t) == Places(s, t)
  {
    hide Total, Count, SubmitterCounts, QueueCounts, HandCounts, Free, QueueOfLoad, IsPow2, Pow2;
    HandsUpdate(s.workers, w, WorkerNext(s, w).workers[w], t);
    if s.queues[w] != [] {
      QueuesUpdate(s.queues, w, s.queues[w][1..], t);
      CountFront(s.queues[w], t);
    }
  }

  lemma StealingPlaces(s: State, w: nat, t: Task)
    requires Shaped(s) && w < |s.workers| && WorkerEnabled(s, w) && s.workers[w].Stealing?
    ensures Places(WorkerNext(s, w), t) == Places(s, t)
  {
    hide Total, Count, SubmitterCounts, QueueCounts, HandCounts, Free, QueueOfLoad, IsPow2, Pow2;
    HandsUpdate(s.workers, w, WorkerNext(s, w).workers[w], t);
    var q := Target(s, w);
    var other := s.queues[q];
    var n := |other| - 1;
    QueuesUpdate(s.queues, q, other[..n], t);
    CountBack(other[..n], other[n], t);
    assert other[..n] + [other[n]] == other;
  }

  lemma WorkerStepPlaces(s: State, w: nat, t: Task)
    requires Shaped(s) && w < |s.workers| && WorkerEnabled(s, w)
    ensures Places(WorkerNext(s, w), t) == Places(s, t)
  {
    hide Places, WorkerNext, WorkerEnabled, Shaped;
    if s.workers[w].Taking? {
      TakingPlaces(s, w, t);
    } else if s.workers[w].Stealing? {
      StealingPlaces(s, w, t);
    } else {
      OtherPlaces(s, w, t);
    }
  }

  lemma OtherPlaces(s: State, w: nat, t: Task)
    requires Shaped(s) && w < |s.workers| && WorkerEnabled(s, w) && !s.workers[w].Taking? && !s.workers[w].Stealing?
    ensures Places(WorkerNext(s, w), t) == Places(s, t)
  {
    hide Total, Count, SubmitterCounts, QueueCounts, HandCounts, Free, QueueOfLoad, IsPow2, Pow2;
    HandsUpdate(s.workers, w, WorkerNext(s, w).workers[w], t);
    if s.workers[w].RunningOwn? || s.workers[w].RunningStolen? { CountBack(s.finished, s.workers[w].task, t); }
  }

  lemma WokenPlaces(s: State, q: nat, t: Task)
    requires q < |s.workers|
    ensures Places(Woken(s, q), t) == Places(s, t)
  {
    hide Total, Count, SubmitterCounts, QueueCounts, HandCounts;
    HandsUpdate(s.workers, q, Popping, t);
  }

  lemma SubmitPlaces(s: State, k: nat, t: Task)
    requires Shaped(s) && k < |s.submitters| && SubmitEnabled(s, k)
    ensures Places(SubmitNext(s, k), t) == Places(s, t) + if s.submitters[k].Away? then Times(s.loads, t) else 0
  {
    hide Total, Count, SubmitterCounts, QueueCounts, HandCounts, Free, QueueOfLoad;
    var s' := SubmitNext(s, k);
    SubmittersUpdate(s.submitters, k, s'.submitters[k], t);
    match s.submitters[k]
    case Inside(task) =>
      var q := QueueOf(s, task);
      QueuesUpdate(s.queues, q, s.queues[q] + [task], t);
      CountBack(s.queues[q], task, t);
    case OweNotify(q) => WokenPlaces(Put(s, k, Away), q, t);
    case _ =>
  }

  /** A load creates its task when it takes its number; no other step creates, copies or loses one. */
  lemma StepPlaces(s: State, l: Label, t: Task)
    requires Shaped(s) && Enabled(s, l)
    ensures s.loads <= Step(s, l).loads <= s.loads + 1
    ensures Places(Step(s, l), t) == Places(s, t) + if Step(s, l).loads > s.loads then Times(s.loads, t) else 0
  {
    hide Total, Count, SubmitterCounts, QueueCounts, HandCounts, Free, QueueOfLoad;
    match l
    case WorkerStep(w) => WorkerStepPlaces(s, w, t);
    case StealFails(w) => HandsUpdate(s.workers, w, Scanning(s.workers[w].i + 1), t);
    case SpuriousWake(w) => HandsUpdate(s.workers, w, Popping, t);
    case Submit(k) => SubmitPlaces(s, k, t);
    case StopStep => if s.stopper.Finalizing? && s.stopper.i < |s.workers| { WokenPlaces(s, s.stopper.i, t); }
  }

  lemma InitPlaces(s: State, t: Task)
    requires Init(s)
    ensures Places(s, t) == 0
  {
    TotalZero(SubmitterCounts(s.submitters, t));
    TotalZero(QueueCounts(s.queues, t));
    TotalZero(HandCounts(s.workers, t));
  }

  /** In every reachable state each loaded task is in exactly one place, and nothing else is anywhere. */
  lemma {:induction false} EachTaskInOnePlace(states: seq<State>, labels: seq<Label>, k: nat, t: Task)
    requires Run(states, labels) && k < |states|
    ensures Places(states[k], t) == if t < states[k].loads then 1 else 0
  {
    hide Places, Step, Enabled;
    if k == 0 {
      InitPlaces(states[0], t);
    } else {
      EachTaskInOnePlace(states, labels, k - 1, t);
      StepPlaces(states[k - 1], labels[k - 1], t);
    }
  }

  /** Nobody holds a task any more and all queues are empty. */
  ghost predicate Drained(s: State) {
    && (forall k :: 0 <= k < |s.submitters| ==> !s.submitters[k].Holding? && !s.submitters[k].Inside?)
    && (forall q :: 0 <= q < |s.queues| ==> s.queues[q] == [])
    && (forall w :: 0 <= w < |s.workers| ==> !s.workers[w].RunningOwn? && !s.workers[w].RunningStolen?)
  }

  /** No task ever runs twice, and once the executor has drained every loaded task has run exactly once. */
  lemma RunsAtMostOnce(states: seq<State>, labels: seq<Label>, k: nat, t: Task)
    requires Run(states, labels) && k < |states|
    ensures Total(HandCounts(states[k].workers, t)) + Count(states[k].finished, t) <= 1
    ensures Drained(states[k]) ==> Count(states[k].finished, t) == if t < states[k].loads then 1 else 0
  {
    var s := states[k];
    EachTaskInOnePlace(states, labels, k, t);
    if Drained(s) {
      TotalZero(SubmitterCounts(s.submitters, t));
      TotalZero(QueueCounts(s.queues, t));
      TotalZero(HandCounts(s.workers, t));
    }
  }

  // ---------- the own worker takes in order ----------

  /** a can be had from b by leaving elements out. */
  predicate Embeds(a: seq<Task>, b: seq<Task>) {
    if a == [] then true
    else if b == [] then false
    else if a[|a| - 1] == b[|b| - 1] then Embeds(a[..|a| - 1], b[..|b| - 1])
    else Embeds(a, b[..|b| - 1])
  }

  lemma {:induction false} EmbedsWithoutLast(a: seq<Task>, b: seq<Task>)
    requires a != [] && Embeds(a, b)
    ensures Embeds(a[..|a| - 1], b)
    decreases |a| + |b|, 0
  {
    var front := b[..|b| - 1];
    if a[|a| - 1] == b[|b| - 1] {
      EmbedsInMore(a[..|a| - 1], front, b[|b| - 1]);
      assert front + [b[|b| - 1]] == b;
    } else {
      EmbedsWithoutLast(a, front);
      EmbedsInMore(a[..|a| - 1], front, b[|b| - 1]);
      assert front + [b[|b| - 1]] == b;
    }
  }

  lemma {:induction false} EmbedsInMore(a: seq<Task>, b: seq<Task>, x: Task)
    requires Embeds(a, b)
    ensures Embeds(a, b + [x])
    decreases |a| + |b|, 1
  {
    assert (b + [x])[..|b|] == b;
    if a != [] && a[|a| - 1] == x { EmbedsWithoutLast(a, b); }
  }

  lemma EmbedsBoth(a: seq<Task>, b: seq<Task>, x: Task)
    requires Embeds(a, b)
    ensures Embeds(a + [x], b + [x])
  {
    assert (a + [x])[..|a|] == a && (b + [x])[..|b|] == b;
  }

  /** What the own worker has taken, followed by what is still queued, is what was pushed less what was stolen. */
  ghost predicate InOrder(s: State)
    requires Shaped(s)
  {
    forall q :: 0 <= q < |s.queues| ==> Embeds(s.ownTaken[q] + s.queues[q], s.pushed[q])
  }

  /** What can happen to one queue and its records: nothing, a push of x, a take by its own worker, or a theft at the back. */
  ghost predicate QueueChanges(s: State, s': State, q: nat, x: Task, pushing: bool)
    requires q < |s.queues| && q < |s.pushed| && q < |s.ownTaken| && q < |s'.queues| && q < |s'.pushed| && q < |s'.ownTaken|
  {
    || (s'.queues[q] == s.queues[q] && s'.pushed[q] == s.pushed[q] && s'.ownTaken[q] == s.ownTaken[q])
    || (pushing && s'.ownTaken[q] == s.ownTaken[q]
        && s'.queues[q] == s.queues[q] + [x] && s'.pushed[q] == s.pushed[q] + [x])
    || (s.queues[q] != [] && s'.pushed[q] == s.pushed[q]
        && s'.queues[q] == s.queues[q][1..] && s'.ownTaken[q] == s.ownTaken[q] + [s.queues[q][0]])
    || (s.queues[q] != [] && s'.pushed[q] == s.pushed[q]
        && s'.queues[q] == s.queues[q][..|s.queues[q]| - 1] && s'.ownTaken[q] == s.ownTaken[q])
  }

  predicate Pushing(s: State, l: Label) {
    l.Submit? && l.k < |s.submitters| && s.submitters[l.k].Inside?
  }

  function PushedTask(s: State, l: Label): Task {
    if Pushing(s, l) then s.submitters[l.k].task else 0
  }

  lemma TakeChangesQueue(s: State, w: nat, q: nat)
    requires Shaped(s) && w < |s.workers| && q < |s.queues| && WorkerEnabled(s, w) && (s.workers[w].Taking? || s.workers[w].Stealing?)
    ensures Shaped(WorkerNext(s, w)) && |WorkerNext(s, w).queues| == |s.queues| && QueueChanges(s, WorkerNext(s, w), q, 0, false)
  {
    hide Free, QueueOfLoad, IsPow2, Pow2;
  }

  lemma WorkerChangesQueue(s: State, w: nat, q: nat)
    requires Shaped(s) && w < |s.workers| && q < |s.queues| && WorkerEnabled(s, w)
    ensures Shaped(WorkerNext(s, w)) && |WorkerNext(s, w).queues| == |s.queues| && QueueChanges(s, WorkerNext(s, w), q, 0, false)
  {
    if s.workers[w].Taking? || s.workers[w].Stealing? {
      hide WorkerNext, WorkerEnabled;
      TakeChangesQueue(s, w, q);
    } else {
      hide Free, QueueOfLoad, IsPow2, Pow2;
    }
  }

  lemma SubmitChangesQueue(s: State, k: nat, q: nat)
    requires Shaped(s) && k < |s.submitters| && q < |s.queues| && SubmitEnabled(s, k)
    ensures Shaped(SubmitNext(s, k)) && |SubmitNext(s, k).queues| == |s.queues|
    ensures QueueChanges(s, SubmitNext(s, k), q, PushedTask(s, Submit(k)), Pushing(s, Submit(k)))
  {
    hide Free, QueueOfLoad, IsPow2, Pow2;
  }

  lemma QueueChange(s: State, l: Label, q: nat)
    requires Shaped(s) && Enabled(s, l) && q < |s.queues|
    ensures Shaped(Step(s, l)) && |Step(s, l).queues| == |s.queues|
    ensures QueueChanges(s, Step(s, l), q, PushedTask(s, l), Pushing(s, l))
  {
    hide Free, QueueOfLoad, IsPow2, Pow2, WorkerEnabled, WorkerNext, SubmitEnabled, SubmitNext;
    StepShaped(s, l);
    if l.WorkerStep? {
      WorkerChangesQueue(s, l.w, q);
    } else if l.Submit? {
      SubmitChangesQueue(s, l.k, q);
    }
  }

  lemma QueueInOrderStep(s: State, l: Label, q: nat)
    requires Shaped(s) && Enabled(s, l) && q < |s.queues|
    requires Embeds(s.ownTaken[q] + s.queues[q], s.pushed[q])
    ensures Shaped(Step(s, l)) && |Step(s, l).queues| == |s.queues|
    ensures Embeds(Step(s, l).ownTaken[q] + Step(s, l).queues[q], Step(s, l).pushed[q])
  {
    hide Embeds, Step, Enabled, IsPow2, Pow2;
    QueueChange(s, l, q);
    var s' := Step(s, l);
    var own, queue := s.ownTaken[q], s.queues[q];
    if s'.pushed[q] != s.pushed[q] {
      var x := s.submitters[l.k].task;
      EmbedsBoth(own + queue, s.pushed[q], x);
      assert own + (queue + [x]) == (own + queue) + [x];
    } else if s'.ownTaken[q] != own {
      assert (own + [queue[0]]) + queue[1..] == own + queue;
    } else if s'.queues[q] != queue {
      EmbedsWithoutLast(own + queue, s.pushed[q]);
      assert (own + queue)[..|own + queue| - 1] == own + queue[..|queue| - 1];
    }
  }

  lemma {:induction false} RunInOrder(states: seq<State>, labels: seq<Label>, k: nat)
    requires Run(states, labels) && k < |states|
    ensures Shaped(states[k]) && InOrder(states[k])
  {
    hide Step, Enabled, Embeds;
    RunShaped(states, labels, k);
    if k == 0 {
      var s := states[0];
      forall q | 0 <= q < |s.queues|
        ensures Embeds(s.ownTaken[q] + s.queues[q], s.pushed[q])
      {
        EmbedsItself(s.pushed[q]);
        assert s.ownTaken[q] + s.queues[q] == s.pushed[q];
      }
    } else {
      RunInOrder(states, labels, k - 1);
      StepShaped(states[k - 1], labels[k - 1]);
      forall q | 0 <= q < |states[k].queues|
        ensures Embeds(states[k].ownTaken[q] + states[k].queues[q], states[k].pushed[q])
      {
        assert Embeds(states[k - 1].ownTaken[q] + states[k - 1].queues[q], states[k - 1].pushed[q]);
        QueueInOrderStep(states[k - 1], labels[k - 1], q);
      }
    }
  }

  lemma {:induction false} EmbedsItself(a: seq<Task>)
    ensures Embeds(a, a)
  {
    if a != [] { EmbedsItself(a[..|a| - 1]); }
  }

  lemma {:induction false} EmbedsPrefix(a: seq<Task>, b: seq<Task>, c: seq<Task>)
    requires Embeds(a + b, c)
    ensures Embeds(a, c)
    decreases |b|
  {
    if b == [] {
      assert a + b == a;
    } else {
      EmbedsWithoutLast(a + b, c);
      assert (a + b)[..|a + b| - 1] == a + b[..|b| - 1];
      EmbedsPrefix(a, b[..|b| - 1], c);
    }
  }

  /** A queue's own worker takes its tasks in the order they were pushed, whatever thieves do at the back meanwhile. */
  lemma OwnWorkerInPushOrder(states: seq<State>, labels: seq<Label>, k: nat, q: nat)
    requires Run(states, labels) && k < |states| && q < |states[0].queues|
    ensures |states[k].ownTaken| == |states[k].pushed| == |states[0].queues|
    ensures Embeds(states[k].ownTaken[q], states[k].pushed[q])
  {
    RunShaped(states, labels, k);
    RunInOrder(states, labels, k);
    EmbedsPrefix(states[k].ownTaken[q], states[k].queues[q], states[k].pushed[q]);
  }

  // ---------- one loading thread: push order is load order ----------

  ghost predicate Increasing(a: seq<Task>) {
    forall i, j :: 0 <= i < j < |a| ==> a[i] < a[j]
  }

  ghost predicate Below(a: seq<Task>, bound: nat) {
    forall i :: 0 <= i < |a| ==> a[i] < bound
  }

  /** With one loading thread all that was pushed is older than the task in its hand, the last one loaded. */
  ghost predicate LoadedInOrder(s: State)
    requires Shaped(s) && |s.submitters| == 1
  {
    var inHand := s.submitters[0].Holding? || s.submitters[0].Inside?;
    && (inHand ==> s.submitters[0].task + 1 == s.loads)
    && forall q :: 0 <= q < |s.pushed| ==> Increasing(s.pushed[q]) && Below(s.pushed[q], if inHand then s.loads - 1 else s.loads)
  }

  lemma SubmitterStep(s: State, l: Label)
    requires Shaped(s) && Enabled(s, l) && |s.submitters| == 1
    ensures |Step(s, l).submitters| == 1
    ensures
      var before, after := s.submitters[0], Step(s, l).submitters[0];
      if !l.Submit? then after == before && Step(s, l).loads == s.loads
      else match before
        case Away => after == Holding(s.loads) && Step(s, l).loads == s.loads + 1
        case Holding(task) => after == Inside(task) && Step(s, l).loads == s.loads
        case _ => !after.Holding? && !after.Inside? && Step(s, l).loads == s.loads
  {
    hide Free, QueueOfLoad, IsPow2, Pow2;
  }

  lemma LoadedInOrderStep(s: State, l: Label)
    requires Shaped(s) && Enabled(s, l) && |s.submitters| == 1 && LoadedInOrder(s)
    ensures Shaped(Step(s, l)) && |Step(s, l).submitters| == 1 && LoadedInOrder(Step(s, l))
  {
    hide Step, IsPow2, Pow2;
    StepShaped(s, l);
    SubmitterStep(s, l);
    var s' := Step(s, l);
    forall q | 0 <= q < |s'.pushed|
      ensures Increasing(s'.pushed[q])
      ensures Below(s'.pushed[q], if s'.submitters[0].Holding? || s'.submitters[0].Inside? then s'.loads - 1 else s'.loads)
    {
      QueueChange(s, l, q);
      assert Increasing(s.pushed[q]);
    }
  }

  lemma {:induction false} RunLoadedInOrder(states: seq<State>, labels: seq<Label>, k: nat)
    requires Run(states, labels) && k < |states| && |states[0].submitters| == 1
    ensures Shaped(states[k]) && |states[k].submitters| == 1 && LoadedInOrder(states[k])
  {
    hide Step, Enabled;
    if k > 0 {
      RunLoadedInOrder(states, labels, k - 1);
      LoadedInOrderStep(states[k - 1], labels[k - 1]);
    }
  }

  lemma {:induction false} EmbeddedIsMember(a: seq<Task>, b: seq<Task>, bound: nat)
    requires Embeds(a, b) && Below(b, bound)
    ensures Below(a, bound)
  {
    if a != [] {
      if a[|a| - 1] == b[|b| - 1] {
        EmbeddedIsMember(a[..|a| - 1], b[..|b| - 1], bound);
      } else {
        EmbeddedIsMember(a, b[..|b| - 1], bound);
      }
    }
  }

  lemma {:induction false} EmbeddedIncreasing(a: seq<Task>, b: seq<Task>)
    requires Embeds(a, b) && Increasing(b)
    ensures Increasing(a)
  {
    if a != [] {
      if a[|a| - 1] == b[|b| - 1] {
        EmbeddedIncreasing(a[..|a| - 1], b[..|b| - 1]);
        EmbeddedIsMember(a[..|a| - 1], b[..|b| - 1], b[|b| - 1]);
      } else {
        EmbeddedIncreasing(a, b[..|b| - 1]);
      }
    }
  }

  /** With one loading thread every worker takes the tasks of its own queue in load order. */
  lemma OwnWorkerInLoadOrder(states: seq<State>, labels: seq<Label>, k: nat, q: nat)
    requires Run(states, labels) && k < |states| && q < |states[0].queues| && |states[0].submitters| == 1
    ensures |states[k].ownTaken| == |states[0].queues| && Increasing(states[k].ownTaken[q])
  {
    OwnWorkerInPushOrder(states, labels, k, q);
    RunLoadedInOrder(states, labels, k);
    EmbeddedIncreasing(states[k].ownTaken[q], states[k].pushed[q]);
  }

  // ---------- after stop ----------

  /** The step takes a task out of some queue for worker w. */
  ghost predicate Removes(s: State, l: Label, w: nat)
    requires Shaped(s) && Enabled(s, l)
  {
    l == WorkerStep(w) && ((s.workers[w].Taking? && s.queues[w] != []) || s.workers[w].Stealing?)
  }

  ghost function Removed(states: seq<State>, labels: seq<Label>, from: nat, end: nat, w: nat): nat
    requires end <= |labels| < |states|
    requires forall k :: 0 <= k < |labels| ==> Shaped(states[k]) && Enabled(states[k], labels[k])
    decreases end
  {
    if end <= from then 0
    else Removed(states, labels, from, end - 1, w) + if Removes(states[end - 1], labels[end - 1], w) then 1 else 0
  }

  /** Whether a worker can still take a task although `_running` is clear. */
  predicate MayStillTake(worker: Worker) {
    !worker.Looping? && !worker.Exited? && !worker.RunningOwn? && !worker.Checking? && !worker.Scanning? && !worker.RunningStolen?
  }

  lemma WorkerMovesItself(s: State, x: nat, w: nat)
    requires Shaped(s) && x < |s.workers| && w < |s.workers| && x != w && WorkerEnabled(s, x)
    ensures |WorkerNext(s, x).workers| == |s.workers| && WorkerNext(s, x).workers[w] == s.workers[w]
  {
    hide Free, QueueOfLoad, IsPow2, Pow2;
  }

  lemma SubmitOnlyWakes(s: State, k: nat, w: nat)
    requires Shaped(s) && k < |s.submitters| && w < |s.workers| && SubmitEnabled(s, k)
    ensures |SubmitNext(s, k).workers| == |s.workers|
    ensures SubmitNext(s, k).workers[w] == s.workers[w] || (s.workers[w].Blocked? && SubmitNext(s, k).workers[w].Popping?)
  {
    hide Free, QueueOfLoad, IsPow2, Pow2;
  }

  /** What others can do to a worker: wake it. */
  lemma OthersOnlyWake(s: State, l: Label, w: nat)
    requires Shaped(s) && Enabled(s, l) && w < |s.workers| && l != WorkerStep(w) && l != StealFails(w)
    ensures |Step(s, l).workers| == |s.workers|
    ensures Step(s, l).workers[w] == s.workers[w] || (s.workers[w].Blocked? && Step(s, l).workers[w].Popping?)
  {
    hide Free, QueueOfLoad, IsPow2, Pow2, WorkerEnabled, WorkerNext, SubmitEnabled, SubmitNext;
    if l.WorkerStep? {
      WorkerMovesItself(s, l.w, w);
    } else if l.Submit? {
      SubmitOnlyWakes(s, l.k, w);
    }
  }

  lemma StaysStopped(s: State, l: Label)
    requires Shaped(s) && Enabled(s, l) && !s.running
    ensures !Step(s, l).running && |Step(s, l).workers| == |s.workers|
  {
    hide Free, QueueOfLoad, IsPow2, Pow2;
  }

  lemma StoppedStep(s: State, l: Label, w: nat)
    requires Shaped(s) && Enabled(s, l) && !s.running && w < |s.workers|
    ensures !Step(s, l).running && |Step(s, l).workers| == |s.workers|
    ensures (if Removes(s, l, w) then 1 else 0) + (if MayStillTake(Step(s, l).workers[w]) then 1 else 0)
         <= if MayStillTake(s.workers[w]) then 1 else 0
  {
    StaysStopped(s, l);
    if l == WorkerStep(w) || l == StealFails(w) {
      hide Free, QueueOfLoad, IsPow2, Pow2;
    } else {
      hide Step, Enabled;
      OthersOnlyWake(s, l, w);
    }
  }

  lemma {:induction false} StopCountdown(states: seq<State>, labels: seq<Label>, from: nat, end: nat, w: nat)
    requires Run(states, labels) && from <= end <= |labels| && !states[from].running && w < |states[0].queues|
    ensures !states[end].running && |states[end].workers| == |states[from].workers| == |states[0].queues|
    ensures Removed(states, labels, from, end, w) + (if MayStillTake(states[end].workers[w]) then 1 else 0)
         <= if MayStillTake(states[from].workers[w]) then 1 else 0
  {
    hide Step, Enabled, Removes, MayStillTake;
    RunShaped(states, labels, from);
    if from < end {
      StopCountdown(states, labels, from, end - 1, w);
      RunShaped(states, labels, end - 1);
      StoppedStep(states[end - 1], labels[end - 1], w);
    }
  }

  /** Once stop has cleared `_running`, each worker removes at most one more task from any queue. */
  lemma AtMostOneAfterStop(states: seq<State>, labels: seq<Label>, from: nat, end: nat, w: nat)
    requires Run(states, labels) && from <= end <= |labels| && !states[from].running && w < |states[0].queues|
    ensures Removed(states, labels, from, end, w) <= 1
  {
    StopCountdown(states, labels, from, end, w);
  }

  // ---------- waking ----------

  ghost predicate Owed(s: State, q: nat) {
    exists k :: 0 <= k < |s.submitters| && s.submitters[k] == OweNotify(q)
  }

  /** The monitor of queue q: its mutex excludes, its worker goes to sleep on an empty queue, and is owed a notify for what came since. */
  ghost predicate MonitorOk(s: State, q: nat)
    requires Shaped(s) && q < |s.queues|
  {
    && (WorkerInside(s.workers[q]) ==> forall k :: 0 <= k < |s.submitters| ==> !SubmitterInside(s, k, q))
    && (s.workers[q].Blocking? ==> s.queues[q] == [])
    && (s.workers[q].Blocked? && s.queues[q] != [] ==> Owed(s, q))
  }

  lemma OwedKept(s: State, s': State, q: nat)
    requires Owed(s, q) && |s'.submitters| == |s.submitters|
    requires forall k :: 0 <= k < |s.submitters| && s.submitters[k] == OweNotify(q) ==> s'.submitters[k] == OweNotify(q)
    ensures Owed(s', q)
  {
    var k :| 0 <= k < |s.submitters| && s.submitters[k] == OweNotify(q);
    assert s'.submitters[k] == OweNotify(q);
  }

  /** Nobody but a submitter enters or leaves the push section of a queue. */
  lemma InsideSame(s: State, s': State, q: nat)
    requires |s.queues| == |s'.queues| > 0 && s'.submitters == s.submitters
    ensures forall k :: 0 <= k < |s.submitters| ==> SubmitterInside(s', k, q) == SubmitterInside(s, k, q)
    ensures Owed(s', q) == Owed(s, q)
  {
    hide QueueOfLoad;
  }

  lemma SubmittersAside(s: State, l: Label)
    requires Shaped(s) && Enabled(s, l) && !l.Submit?
    ensures Step(s, l).submitters == s.submitters
  {
    hide Free, QueueOfLoad, IsPow2, Pow2;
  }

  lemma MonitorOwnStep(s: State, q: nat)
    requires Shaped(s) && Enabled(s, WorkerStep(q)) && MonitorOk(s, q)
    ensures Shaped(Step(s, WorkerStep(q))) && q < |Step(s, WorkerStep(q)).queues| && MonitorOk(Step(s, WorkerStep(q)), q)
  {
    hide QueueOfLoad, IsPow2, Pow2, Owed, SubmitterInside;
    StepShaped(s, WorkerStep(q));
    InsideSame(s, Step(s, WorkerStep(q)), q);
  }

  lemma StealFailsStep(s: State, q: nat)
    requires Shaped(s) && Enabled(s, StealFails(q))
    ensures q < |Step(s, StealFails(q)).workers| && Step(s, StealFails(q)).workers[q].Scanning?
  {
  }

  lemma MonitorWorkerStep(s: State, l: Label, q: nat)
    requires Shaped(s) && Enabled(s, l) && q < |s.queues| && MonitorOk(s, q) && !l.Submit?
    ensures Shaped(Step(s, l)) && q < |Step(s, l).queues| && MonitorOk(Step(s, l), q)
  {
    StepShaped(s, l);
    if l == WorkerStep(q) {
      MonitorOwnStep(s, q);
    } else {
      hide Step, Enabled, Owed, SubmitterInside;
      SubmittersAside(s, l);
      QueueChange(s, l, q);
      if l == StealFails(q) { StealFailsStep(s, q); } else { OthersOnlyWake(s, l, q); }
      InsideSame(s, Step(s, l), q);
    }
  }

  lemma MutexSubmitStep(s: State, k: nat, q: nat)
    requires Shaped(s) && Enabled(s, Submit(k)) && q < |s.queues| && MonitorOk(s, q)
    ensures var s' := Step(s, Submit(k));
      && Shaped(s') && q < |s'.queues|
      && (s'.workers[q] == s.workers[q] || s'.workers[q].Popping?)
      && (WorkerInside(s'.workers[q]) ==>
            s'.queues[q] == s.queues[q]
            && forall j :: 0 <= j < |s'.submitters| ==> !SubmitterInside(s', j, q))
  {
    hide QueueOfLoad, IsPow2, Pow2, Owed;
    StepShaped(s, Submit(k));
    var s' := Step(s, Submit(k));
    if WorkerInside(s'.workers[q]) {
      assert !SubmitterInside(s, k, q);
      forall j | 0 <= j < |s'.submitters|
        ensures !SubmitterInside(s', j, q)
      {
        assert !SubmitterInside(s, j, q);
      }
    }
  }

  lemma OwedSubmitStep(s: State, k: nat, q: nat)
    requires Shaped(s) && Enabled(s, Submit(k)) && q < |s.queues| && MonitorOk(s, q)
    ensures Shaped(Step(s, Submit(k))) && q < |Step(s, Submit(k)).queues|
    ensures Step(s, Submit(k)).workers[q].Blocked? && Step(s, Submit(k)).queues[q] != [] ==> Owed(Step(s, Submit(k)), q)
  {
    hide QueueOfLoad, IsPow2, Pow2, Owed, Free, SubmitterInside;
    StepShaped(s, Submit(k));
    var s' := Step(s, Submit(k));
    if s.submitters[k] == OweNotify(q) {
      assert !s'.workers[q].Blocked?;
    } else if Owed(s, q) {
      OwedKept(s, s', q);
    } else if s'.queues[q] != s.queues[q] {
      OwedNow(s', k, q);
    }
  }

  lemma MonitorSubmitStep(s: State, k: nat, q: nat)
    requires Shaped(s) && Enabled(s, Submit(k)) && q < |s.queues| && MonitorOk(s, q)
    ensures Shaped(Step(s, Submit(k))) && q < |Step(s, Submit(k)).queues| && MonitorOk(Step(s, Submit(k)), q)
  {
    hide QueueOfLoad, IsPow2, Pow2, Owed, Free, SubmitterInside, Step, Enabled;
    MutexSubmitStep(s, k, q);
    OwedSubmitStep(s, k, q);
  }

  lemma OwedNow(s: State, k: nat, q: nat)
    requires k < |s.submitters| && s.submitters[k] == OweNotify(q)
    ensures Owed(s, q)
  {
  }

  lemma {:induction false} RunMonitorOk(states: seq<State>, labels: seq<Label>, k: nat, q: nat)
    requires Run(states, labels) && k < |states| && q < |states[0].queues|
    ensures Shaped(states[k]) && |states[k].queues| == |states[0].queues| && MonitorOk(states[k], q)
  {
    hide Step, Enabled;
    RunShaped(states, labels, k);
    if k > 0 {
      RunMonitorOk(states, labels, k - 1, q);
      var l := labels[k - 1];
      if l.Submit? {
        MonitorSubmitStep(states[k - 1], l.k, q);
      } else {
        MonitorWorkerStep(states[k - 1], l, q);
      }
    }
  }

  /** No lost wakeup while running: a worker asleep beside a non-empty queue is still owed a notify by some pusher. */
  lemma SleeperIsOwedNotify(states: seq<State>, labels: seq<Label>, k: nat, q: nat)
    requires Run(states, labels) && k < |states| && q < |states[0].queues|
    ensures |states[k].workers| == |states[k].queues| == |states[0].queues|
    ensures states[k].workers[q].Blocked? && states[k].queues[q] != [] ==>
      exists j :: 0 <= j < |states[k].submitters| && states[k].submitters[j] == OweNotify(q)
  {
    RunMonitorOk(states, labels, k, q);
  }
}

/** Loads as their callers see them: order between loads that do not overlap, and what a loading thread can wait for. */
module ExecutorLoads {
  import opened Bits
  import opened Counting
  import opened Executor
  import opened ExecutorProof
  import opened RoundRobin

  // ---------- loads that do not overlap ----------

  /** In how many places a task has been since its load took its number: a submitter's hand, or the push records. */
  function Entered(s: State, t: Task): nat {
    Total(SubmitterCounts(s.submitters, t)) + Total(QueueCounts(s.pushed, t))
  }

  lemma EnteredSubmitStep(s: State, k: nat, t: Task)
    requires Shaped(s) && k < |s.submitters| && SubmitEnabled(s, k)
    ensures Entered(SubmitNext(s, k), t) == Entered(s, t) + if s.submitters[k].Away? then Times(s.loads, t) else 0
  {
    hide Total, Count, SubmitterCounts, QueueCounts, HandCounts, Free, QueueOfLoad, IsPow2, Pow2;
    var s' := SubmitNext(s, k);
    SubmittersUpdate(s.submitters, k, s'.submitters[k], t);
    if s.submitters[k].Inside? {
      var task := s.submitters[k].task;
      var q := QueueOf(s, task);
      QueuesUpdate(s.pushed, q, s.pushed[q] + [task], t);
      CountBack(s.pushed[q], task, t);
    }
  }

  lemma PushedAside(s: State, l: Label)
    requires Shaped(s) && Enabled(s, l) && !l.Submit?
    ensures Step(s, l).pushed == s.pushed && Step(s, l).loads == s.loads
  {
    hide Free, QueueOfLoad, IsPow2, Pow2;
  }

  lemma {:induction false} EntersOnce(states: seq<State>, labels: seq<Label>, k: nat, t: Task)
    requires Run(states, labels) && k < |states|
    ensures Entered(states[k], t) == if t < states[k].loads then 1 else 0
  {
    hide Entered, Step, Enabled;
    if k == 0 {
      NothingEntered(states[0], t);
    } else {
      EntersOnce(states, labels, k - 1, t);
      EnteredStep(states[k - 1], labels[k - 1], t);
    }
  }

  lemma NothingEntered(s: State, t: Task)
    requires Init(s)
    ensures Entered(s, t) == 0
  {
    TotalZero(SubmitterCounts(s.submitters, t));
    TotalZero(QueueCounts(s.pushed, t));
  }

  lemma EnteredStep(s: State, l: Label, t: Task)
    requires Shaped(s) && Enabled(s, l)
    ensures s.loads <= Step(s, l).loads <= s.loads + 1
    ensures Entered(Step(s, l), t) == Entered(s, t) + if Step(s, l).loads > s.loads then Times(s.loads, t) else 0
  {
    hide Total, SubmitterCounts, QueueCounts, Free, QueueOfLoad, IsPow2, Pow2;
    if l.Submit? {
      EnteredSubmitStep(s, l.k, t);
    } else {
      SubmittersAside(s, l);
      PushedAside(s, l);
    }
  }

  lemma {:induction false} PushedGrows(states: seq<State>, labels: seq<Label>, k: nat, j: nat, q: nat)
    requires Run(states, labels) && k <= j < |states| && q < |states[0].queues|
    ensures |states[k].pushed| == |states[j].pushed| == |states[0].queues|
    ensures states[k].pushed[q] <= states[j].pushed[q]
  {
    hide Step, Enabled;
    RunShaped(states, labels, k);
    RunShaped(states, labels, j);
    if k < j {
      PushedGrows(states, labels, k, j - 1, q);
      RunShaped(states, labels, j - 1);
      QueueChange(states[j - 1], labels[j - 1], q);
    }
  }

  lemma {:induction false} CountOfMember(a: seq<Task>, i: nat)
    requires i < |a|
    ensures Count(a, a[i]) >= 1
  {
    if i < |a| - 1 { CountOfMember(a[..|a| - 1], i); }
  }

  lemma {:induction false} CountSplit(a: seq<Task>, b: seq<Task>, t: Task)
    ensures Count(a + b, t) == Count(a, t) + Count(b, t)
  {
    if b == [] {
      assert a + b == a;
    } else {
      CountSplit(a, b[..|b| - 1], t);
      assert (a + b)[..|a + b| - 1] == a + b[..|b| - 1];
    }
  }

  lemma {:induction false} EmbeddedMember(a: seq<Task>, b: seq<Task>, i: nat)
    requires Embeds(a, b) && i < |a|
    ensures a[i] in b
    decreases |b|
  {
    if a[|a| - 1] == b[|b| - 1] {
      if i < |a| - 1 { EmbeddedMember(a[..|a| - 1], b[..|b| - 1], i); }
    } else {
      EmbeddedMember(a, b[..|b| - 1], i);
    }
  }

  /** What embeds in a concatenation is cut in two with it. */
  lemma {:induction false} EmbedsCut(a: seq<Task>, b: seq<Task>, c: seq<Task>) returns (m: nat)
    requires Embeds(a, b + c)
    ensures m <= |a| && Embeds(a[..m], b) && Embeds(a[m..], c)
    decreases |c|
  {
    if c == [] || a == [] {
      m := |a|;
      assert b + [] == b && a[..m] == a && a[m..] == [];
    } else {
      var front := c[..|c| - 1];
      assert (b + c)[..|b + c| - 1] == b + front;
      if a[|a| - 1] == c[|c| - 1] {
        m := EmbedsCut(a[..|a| - 1], b, front);
        assert a[..|a| - 1][..m] == a[..m] && a[..|a| - 1][m..] == a[m..][..|a| - m - 1];
      } else {
        m := EmbedsCut(a, b, front);
        EmbedsInMore(a[m..], front, c[|c| - 1]);
        assert front + [c[|c| - 1]] == c;
      }
    }
  }

  /** A record that has t in its first part and u only later lists t before u, and so does everything embedded in it. */
  lemma EmbeddedOrder(a: seq<Task>, b: seq<Task>, c: seq<Task>, t: Task, u: Task, x: nat, y: nat)
    requires Embeds(a, b + c) && t in b && u !in b && Count(b + c, t) <= 1
    requires x < |a| && y < |a| && a[x] == t && a[y] == u
    ensures x < y
  {
    var m := EmbedsCut(a, b, c);
    var i: nat :| i < |b| && b[i] == t;
    CountOfMember(b, i);
    CountSplit(b, c, t);
    if y < m {
      assert a[..m][y] == u;
      EmbeddedMember(a[..m], b, y);
    }
    if x >= m {
      assert a[m..][x - m] == t;
      EmbeddedMember(a[m..], c, x - m);
      var j: nat :| j < |c| && c[j] == t;
      CountOfMember(c, j);
    }
  }

  lemma EnteredBounds(s: State, q: nat, t: Task)
    requires Shaped(s) && q < |s.queues|
    ensures Count(s.pushed[q], t) <= Entered(s, t)
  {
    hide Count, Total;
    TotalBounds(QueueCounts(s.pushed, t), q);
  }

  /**
   Over all interleavings: if a task had been pushed to a queue before another load was called, the queue's own
   worker does not take the later one first.
   */
  lemma LaterLoadTakenLater(states: seq<State>, labels: seq<Label>, k: nat, j: nat, q: nat, t: Task, u: Task, x: nat, y: nat)
    requires Run(states, labels) && k <= j < |states| && q < |states[0].queues|
    requires |states[k].pushed| == |states[j].ownTaken| == |states[0].queues|
    requires t in states[k].pushed[q] && u >= states[k].loads
    requires x < |states[j].ownTaken[q]| && y < |states[j].ownTaken[q]|
    requires states[j].ownTaken[q][x] == t && states[j].ownTaken[q][y] == u
    ensures x < y
  {
    hide Step, Enabled, Embeds, Count, Entered;
    OwnWorkerInPushOrder(states, labels, j, q);
    PushedGrows(states, labels, k, j, q);
    RunShaped(states, labels, k);
    RunShaped(states, labels, j);
    var b := states[k].pushed[q];
    var c := states[j].pushed[q][|b|..];
    assert states[j].pushed[q] == b + c;
    EntersOnce(states, labels, j, t);
    EnteredBounds(states[j], q, t);
    if u in b {
      var i: nat :| i < |b| && b[i] == u;
      CountOfMember(b, i);
      EntersOnce(states, labels, k, u);
      EnteredBounds(states[k], q, u);
    }
    EmbeddedOrder(states[j].ownTaken[q], b, c, t, u, x, y);
  }

  // ---------- a run in which overlapping loads are taken out of order ----------

  /** One worker with its queue, two loading threads. */
  function Duo(loads: nat, first: Submitter, second: Submitter, worker: Worker, queue: seq<Task>, pushed: seq<Task>, own: seq<Task>): State {
    State(true, loads, [queue], [worker], [first, second], NotStopping, [], [pushed], [own])
  }

  ghost predicate DuoStep(s: State, l: Label, s': State) {
    Shaped(s) && Enabled(s, l) && s' == Step(s, l)
  }

  lemma DuoShaped(s: State)
    requires |s.queues| == |s.workers| == |s.pushed| == |s.ownTaken| == 1
    ensures Shaped(s) && QueueOf(s, 1) == 0
  {
    assert Pow2(0) == 1;
    Pow2Monotone(0, 31);
    AndZero(1 % Pow2(32));
  }

  lemma DuoLoads()
    ensures DuoStep(Duo(0, Away, Away, Looping, [], [], []), Submit(0), Duo(1, Holding(0), Away, Looping, [], [], []))
    ensures DuoStep(Duo(1, Holding(0), Away, Looping, [], [], []), Submit(1), Duo(2, Holding(0), Holding(1), Looping, [], [], []))
    ensures DuoStep(Duo(2, Holding(0), Holding(1), Looping, [], [], []), Submit(1), Duo(2, Holding(0), Inside(1), Looping, [], [], []))
    ensures DuoStep(Duo(2, Holding(0), Inside(1), Looping, [], [], []), Submit(1), Duo(2, Holding(0), OweNotify(0), Looping, [1], [1], []))
  {
    hide IsPow2, Pow2, QueueOfLoad;
    DuoShaped(Duo(0, Away, Away, Looping, [], [], []));
    DuoShaped(Duo(1, Holding(0), Away, Looping, [], [], []));
    DuoShaped(Duo(2, Holding(0), Holding(1), Looping, [], [], []));
    DuoShaped(Duo(2, Holding(0), Inside(1), Looping, [], [], []));
    var none: seq<Task> := [];
    var empty := [none];
    assert none + [1] == [1];
    assert empty[0 := empty[0] + [1]] == [[1]];
    assert [Away, Away][0 := Holding(0)] == [Holding(0), Away];
    assert [Holding(0), Away][1 := Holding(1)] == [Holding(0), Holding(1)];
    assert [Holding(0), Holding(1)][1 := Inside(1)] == [Holding(0), Inside(1)];
    assert [Holding(0), Inside(1)][1 := OweNotify(0)] == [Holding(0), OweNotify(0)];
  }

  lemma DuoTakes()
    ensures DuoStep(Duo(2, Holding(0), OweNotify(0), Looping, [1], [1], []), WorkerStep(0), Duo(2, Holding(0), OweNotify(0), Popping, [1], [1], []))
    ensures DuoStep(Duo(2, Holding(0), OweNotify(0), Popping, [1], [1], []), WorkerStep(0), Duo(2, Holding(0), OweNotify(0), Testing, [1], [1], []))
    ensures DuoStep(Duo(2, Holding(0), OweNotify(0), Testing, [1], [1], []), WorkerStep(0), Duo(2, Holding(0), OweNotify(0), Taking, [1], [1], []))
    ensures DuoStep(Duo(2, Holding(0), OweNotify(0), Taking, [1], [1], []), WorkerStep(0), Duo(2, Holding(0), OweNotify(0), RunningOwn(1), [], [1], [1]))
  {
    hide IsPow2, Pow2, QueueOfLoad;
    forall worker: Worker ensures Shaped(Duo(2, Holding(0), OweNotify(0), worker, [1], [1], [])) {
      DuoShaped(Duo(2, Holding(0), OweNotify(0), worker, [1], [1], []));
    }
    var none: seq<Task> := [];
    var one, empty := [[1]], [none];
    assert none + [1] == [1];
    assert [1][1..] == [];
    assert one[0 := []] == [[]] && empty[0 := empty[0] + [1]] == [[1]];
  }

  /** Of two overlapping loads to one queue the later number can be pushed and taken first. */
  lemma OverlappingLoadsCanSwap() returns (states: seq<State>, labels: seq<Label>)
    ensures Run(states, labels)
    ensures var last := states[|labels|];
      last.ownTaken == [[1]] && last.submitters == [Holding(0), OweNotify(0)]
  {
    hide Step, Enabled, Shaped;
    DuoShaped(Duo(0, Away, Away, Looping, [], [], []));
    DuoLoads();
    DuoTakes();
    states := [
      Duo(0, Away, Away, Looping, [], [], []),
      Duo(1, Holding(0), Away, Looping, [], [], []),
      Duo(2, Holding(0), Holding(1), Looping, [], [], []),
      Duo(2, Holding(0), Inside(1), Looping, [], [], []),
      Duo(2, Holding(0), OweNotify(0), Looping, [1], [1], []),
      Duo(2, Holding(0), OweNotify(0), Popping, [1], [1], []),
      Duo(2, Holding(0), OweNotify(0), Testing, [1], [1], []),
      Duo(2, Holding(0), OweNotify(0), Taking, [1], [1], []),
      Duo(2, Holding(0), OweNotify(0), RunningOwn(1), [], [1], [1])];
    labels := [Submit(0), Submit(1), Submit(1), Submit(1), WorkerStep(0), WorkerStep(0), WorkerStep(0), WorkerStep(0)];
    forall k | 0 <= k < |labels|
      ensures DuoStep(states[k], labels[k], states[k + 1])
    {
    }
  }

  // ---------- submitters wait for nothing but the mutex ----------

  ghost predicate NotifiesExist(s: State) {
    forall k :: 0 <= k < |s.submitters| && s.submitters[k].OweNotify? ==> s.submitters[k].queue < |s.queues|
  }

  lemma NotifiesExistStep(s: State, l: Label)
    requires Shaped(s) && Enabled(s, l) && NotifiesExist(s)
    ensures NotifiesExist(Step(s, l))
  {
    StepShaped(s, l);
    if l.Submit? {
      hide Free, QueueOfLoad, IsPow2, Pow2;
    } else {
      hide Step, Enabled;
      SubmittersAside(s, l);
    }
  }

  lemma {:induction false} RunNotifiesExist(states: seq<State>, labels: seq<Label>, k: nat)
    requires Run(states, labels) && k < |states|
    ensures NotifiesExist(states[k])
  {
    hide Step, Enabled;
    if k > 0 {
      RunNotifiesExist(states, labels, k - 1);
      NotifiesExistStep(states[k - 1], labels[k - 1]);
    }
  }

  /** In every reachable state a thread that loads can go on, unless the mutex of its queue is held. */
  lemma SubmitterWaitsOnlyForMutex(states: seq<State>, labels: seq<Label>, k: nat, i: nat)
    requires Run(states, labels) && k < |states| && i < |states[k].submitters|
    ensures var s := states[k];
      && Shaped(s)
      && (s.submitters[i].Holding? ==> QueueOf(s, s.submitters[i].task) < |s.queues|)
      && (Enabled(s, Submit(i)) <==> s.submitters[i].Holding? ==> Free(s, QueueOf(s, s.submitters[i].task)))
  {
    hide Step, Free, IsPow2, Pow2, QueueOfLoad;
    RunShaped(states, labels, k);
    RunNotifiesExist(states, labels, k);
    var s := states[k];
    assert SubmitEnabled(s, i) == Enabled(s, Submit(i));
    if s.submitters[i].Holding? || s.submitters[i].Inside? { QueueOfInRange(s, s.submitters[i].task); }
  }
}

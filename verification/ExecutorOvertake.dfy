/** When of two loads that overlap the later to reach its queue's mutex is pushed first: exactly when. */
module ExecutorOvertake {
  import opened Bits
  import opened Counting
  import opened Executor
  import opened ExecutorProof
  import opened ExecutorLoads
  import opened RoundRobin

  /** u is in the record and no t stands before it. */
  ghost predicate Precedes(record: seq<Task>, u: Task, t: Task) {
    exists y :: 0 <= y < |record| && record[y] == u && t !in record[..y]
  }

  ghost predicate PrecedesLast(states: seq<State>, q: nat, u: Task, t: Task) {
    states != [] && q < |states[|states| - 1].pushed| && Precedes(states[|states| - 1].pushed[q], u, t)
  }

  /** Some continuation pushes u to queue q before t. */
  ghost predicate CanOvertake(s: State, q: nat, u: Task, t: Task) {
    exists states, labels :: Path(states, labels) && states[0] == s && PrecedesLast(states, q, u, t)
  }

  // ---------- the mutex of a queue ----------

  /** At most one thread is inside queue q's critical sections. */
  ghost predicate MutexOk(s: State, q: nat)
    requires Shaped(s) && q < |s.queues|
  {
    && (WorkerInside(s.workers[q]) ==> forall k :: 0 <= k < |s.submitters| ==> !SubmitterInside(s, k, q))
    && (forall k, m :: 0 <= k < |s.submitters| && 0 <= m < |s.submitters| && SubmitterInside(s, k, q) && SubmitterInside(s, m, q) ==> k == m)
  }

  /** Another submitter enters queue q only when the mutex is free, and is otherwise where it was or outside. */
  lemma SubmitEnters(s: State, k: nat, m: nat, q: nat)
    requires Shaped(s) && k < |s.submitters| && m < |s.submitters| && q < |s.queues| && SubmitEnabled(s, k)
    ensures Shaped(SubmitNext(s, k)) && |SubmitNext(s, k).queues| == |s.queues| && |SubmitNext(s, k).submitters| == |s.submitters|
    ensures SubmitterInside(SubmitNext(s, k), m, q) ==> SubmitterInside(s, m, q) || (m == k && Free(s, q))
    ensures m != k ==> SubmitNext(s, k).submitters[m] == s.submitters[m]
  {
    hide QueueOfLoad, IsPow2, Pow2, Free;
  }

  lemma MutexOkSubmit(s: State, k: nat, q: nat)
    requires Shaped(s) && k < |s.submitters| && q < |s.queues| && SubmitEnabled(s, k) && MutexOk(s, q)
    ensures Shaped(SubmitNext(s, k)) && q < |SubmitNext(s, k).queues| && MutexOk(SubmitNext(s, k), q)
  {
    hide SubmitNext, SubmitEnabled, SubmitterInside;
    var s' := SubmitNext(s, k);
    SubmitEnters(s, k, k, q);
    SubmitOnlyWakes(s, k, q);
    forall m | 0 <= m < |s.submitters|
      ensures SubmitterInside(s', m, q) ==> SubmitterInside(s, m, q) || (m == k && Free(s, q))
    {
      SubmitEnters(s, k, m, q);
    }
  }

  lemma MutexOkStep(s: State, l: Label, q: nat)
    requires Shaped(s) && Enabled(s, l) && q < |s.queues| && MutexOk(s, q)
    ensures Shaped(Step(s, l)) && q < |Step(s, l).queues| && MutexOk(Step(s, l), q)
  {
    StepShaped(s, l);
    if l.Submit? {
      MutexOkSubmit(s, l.k, q);
    } else if l == WorkerStep(q) {
      SubmittersAside(s, l);
      InsideSame(s, Step(s, l), q);
      WorkerEnters(s, q);
    } else {
      hide Step, Enabled, SubmitterInside;
      SubmittersAside(s, l);
      InsideSame(s, Step(s, l), q);
      if l == StealFails(q) { StealFailsStep(s, q); } else { OthersOnlyWake(s, l, q); }
    }
  }

  lemma WorkerEnters(s: State, q: nat)
    requires Shaped(s) && q < |s.workers| && WorkerEnabled(s, q)
    ensures |WorkerNext(s, q).workers| == |s.workers|
    ensures WorkerInside(WorkerNext(s, q).workers[q]) ==> WorkerInside(s.workers[q]) || Free(s, q)
  {
    hide QueueOfLoad, IsPow2, Pow2, Free;
  }

  lemma {:induction false} RunMutexOk(states: seq<State>, labels: seq<Label>, k: nat, q: nat)
    requires Run(states, labels) && k < |states| && q < |states[0].queues|
    ensures Shaped(states[k]) && q < |states[k].queues| && MutexOk(states[k], q)
  {
    hide Step, Enabled;
    RunShaped(states, labels, k);
    if k > 0 {
      RunMutexOk(states, labels, k - 1, q);
      MutexOkStep(states[k - 1], labels[k - 1], q);
    }
  }

  // ---------- inside its section a load cannot be overtaken ----------

  /** t is pushed without u before it, or its submitter is inside the section and u is not pushed. */
  ghost predicate Ahead(s: State, i: nat, q: nat, t: Task, u: Task) {
    && Shaped(s) && q < |s.queues| && MutexOk(s, q) && i < |s.submitters|
    && !Precedes(s.pushed[q], u, t)
    && (t in s.pushed[q] || (s.submitters[i] == Inside(t) && QueueOf(s, t) == q && u !in s.pushed[q]))
  }

  lemma StillBehind(record: seq<Task>, x: Task, u: Task, t: Task)
    requires t != u && !Precedes(record, u, t) && (t in record || (x == t && u !in record))
    ensures !Precedes(record + [x], u, t)
  {
    forall y | 0 <= y < |record + [x]| && (record + [x])[y] == u
      ensures t in (record + [x])[..y]
    {
      if y < |record| {
        assert (record + [x])[..y] == record[..y] && record[y] == u;
      } else {
        assert (record + [x])[..y] == record;
      }
    }
  }

  /** Whoever pushes to queue q was inside its section. */
  lemma PusherWasInside(s: State, k: nat, q: nat)
    requires Shaped(s) && k < |s.submitters| && SubmitEnabled(s, k) && q < |s.queues|
    ensures |SubmitNext(s, k).pushed| == |s.pushed|
    ensures if SubmitterInside(s, k, q) then SubmitNext(s, k).pushed[q] == s.pushed[q] + [s.submitters[k].task]
            else SubmitNext(s, k).pushed[q] == s.pushed[q]
  {
    hide QueueOfLoad, IsPow2, Pow2, Free;
  }

  lemma AheadSubmit(s: State, k: nat, i: nat, q: nat, t: Task, u: Task)
    requires Ahead(s, i, q, t, u) && k < |s.submitters| && SubmitEnabled(s, k) && t != u
    ensures Ahead(SubmitNext(s, k), i, q, t, u)
  {
    hide SubmitNext, SubmitEnabled, MutexOk, Precedes, QueueOfLoad;
    var s' := SubmitNext(s, k);
    MutexOkSubmit(s, k, q);
    SubmitEnters(s, k, i, q);
    PusherWasInside(s, k, q);
    if SubmitterInside(s, k, q) {
      var x := s.submitters[k].task;
      if t !in s.pushed[q] { OnlyOneInside(s, k, i, q); }
      StillBehind(s.pushed[q], x, u, t);
      assert t !in s.pushed[q] ==> s'.pushed[q][|s.pushed[q]|] == t;
    } else if t !in s.pushed[q] {
      assert SubmitterInside(s, i, q);
    }
  }

  lemma OnlyOneInside(s: State, k: nat, i: nat, q: nat)
    requires Shaped(s) && q < |s.queues| && MutexOk(s, q) && k < |s.submitters| && i < |s.submitters|
    requires SubmitterInside(s, k, q) && SubmitterInside(s, i, q)
    ensures k == i
  {
  }

  lemma AheadStep(s: State, l: Label, i: nat, q: nat, t: Task, u: Task)
    requires Ahead(s, i, q, t, u) && Enabled(s, l) && t != u
    ensures Ahead(Step(s, l), i, q, t, u)
  {
    if l.Submit? {
      hide Ahead;
      AheadIsShaped(s, i, q, t, u);
      AheadSubmit(s, l.k, i, q, t, u);
    } else {
      hide Step, Enabled, MutexOk, Precedes, QueueOfLoad;
      MutexOkStep(s, l, q);
      StepShaped(s, l);
      SubmittersAside(s, l);
      PushedAside(s, l);
    }
  }

  lemma AheadIsShaped(s: State, i: nat, q: nat, t: Task, u: Task)
    requires Ahead(s, i, q, t, u)
    ensures Shaped(s)
  {
  }

  lemma {:induction false} StaysAhead(states: seq<State>, labels: seq<Label>, k: nat, i: nat, q: nat, t: Task, u: Task)
    requires Path(states, labels) && k < |states| && Ahead(states[0], i, q, t, u) && t != u
    ensures Ahead(states[k], i, q, t, u)
  {
    hide Step, Enabled, Ahead;
    if k > 0 {
      StaysAhead(states, labels, k - 1, i, q, t, u);
      AheadStep(states[k - 1], labels[k - 1], i, q, t, u);
    }
  }

  lemma AheadIsNotOvertaken(s: State, i: nat, q: nat, t: Task, u: Task)
    requires Ahead(s, i, q, t, u) && t != u
    ensures !CanOvertake(s, q, u, t)
  {
    hide Step, Enabled;
    if CanOvertake(s, q, u, t) {
      var states, labels :| Path(states, labels) && states[0] == s && PrecedesLast(states, q, u, t);
      StaysAhead(states, labels, |labels|, i, q, t, u);
    }
  }

  // ---------- before its section it can ----------

  /** i holds t outside the section, no one else has it, and j is on its way to push u to the same queue. */
  ghost predicate Beatable(s: State, i: nat, j: nat, q: nat, t: Task, u: Task) {
    && Shaped(s) && q < |s.queues| && MutexOk(s, q) && i < |s.submitters| && j < |s.submitters| && i != j
    && s.submitters[i] == Holding(t) && t != u && t !in s.pushed[q]
    && (forall m :: 0 <= m < |s.submitters| && m != i ==> !Holds(s.submitters[m], t))
    && (s.submitters[j] == Holding(u) || s.submitters[j] == Inside(u)) && QueueOf(s, u) == q
  }

  predicate Holds(submitter: Submitter, t: Task) {
    submitter == Holding(t) || submitter == Inside(t)
  }

  /** What can be reached after a step can be reached before it. */
  lemma OneStepEarlier(s: State, l: Label, q: nat, u: Task, t: Task)
    requires Shaped(s) && Enabled(s, l) && CanOvertake(Step(s, l), q, u, t)
    ensures CanOvertake(s, q, u, t)
  {
    hide Step, Enabled, Shaped, Precedes;
    var states, labels :| Path(states, labels) && states[0] == Step(s, l) && PrecedesLast(states, q, u, t);
    var states', labels' := [s] + states, [l] + labels;
    forall k | 0 <= k < |labels'|
      ensures Shaped(states'[k]) && Enabled(states'[k], labels'[k]) && states'[k + 1] == Step(states'[k], labels'[k])
    {
      if k > 0 { assert states'[k] == states[k - 1] && labels'[k] == labels[k - 1] && states'[k + 1] == states[k]; }
    }
    assert Path(states', labels') && states'[0] == s && PrecedesLast(states', q, u, t);
  }

  lemma AlreadyOvertaken(s: State, q: nat, u: Task, t: Task)
    requires Shaped(s) && q < |s.pushed| && Precedes(s.pushed[q], u, t)
    ensures CanOvertake(s, q, u, t)
  {
    hide Step, Enabled, Shaped, Precedes;
    var states, labels: seq<Label> := [s], [];
    assert Path(states, labels) && states[0] == s && PrecedesLast(states, q, u, t);
  }

  /** j is inside: it pushes u. */
  lemma InsidePushes(s: State, i: nat, j: nat, q: nat, t: Task, u: Task)
    requires Beatable(s, i, j, q, t, u) && s.submitters[j] == Inside(u)
    ensures CanOvertake(s, q, u, t)
  {
    hide QueueOfLoad, IsPow2, Pow2, CanOvertake;
    var l := Submit(j);
    assert Enabled(s, l);
    StepShaped(s, l);
    PusherWasInside(s, j, q);
    var record := s.pushed[q] + [u];
    assert record[|s.pushed[q]|] == u && record[..|s.pushed[q]|] == s.pushed[q];
    AlreadyOvertaken(Step(s, l), q, u, t);
    OneStepEarlier(s, l, q, u, t);
  }

  /** A step by someone else than i and j that pushes no t keeps the two where they are. */
  lemma BeatableStep(s: State, l: Label, i: nat, j: nat, q: nat, t: Task, u: Task)
    requires Beatable(s, i, j, q, t, u) && Enabled(s, l) && l != Submit(i) && l != Submit(j)
    requires l.Submit? ==> l.k < |s.submitters| && s.submitters[l.k].Inside?
    ensures Beatable(Step(s, l), i, j, q, t, u) && Step(s, l).submitters[j] == s.submitters[j]
  {
    hide MutexOk, QueueOfLoad, IsPow2, Pow2, SubmitNext, SubmitEnabled, WorkerNext, WorkerEnabled;
    StepShaped(s, l);
    MutexOkStep(s, l, q);
    if l.Submit? {
      PusherWasInside(s, l.k, q);
      PushLeavesHands(s, l.k, t);
      SubmitEnters(s, l.k, i, q);
      SubmitEnters(s, l.k, j, q);
    } else {
      SubmittersAside(s, l);
      PushedAside(s, l);
    }
  }

  lemma PushLeavesHands(s: State, k: nat, t: Task)
    requires Shaped(s) && k < |s.submitters| && SubmitEnabled(s, k) && s.submitters[k].Inside?
    ensures |SubmitNext(s, k).submitters| == |s.submitters|
    ensures SubmitNext(s, k).submitters == s.submitters[k := OweNotify(QueueOf(s, s.submitters[k].task))]
  {
    hide QueueOfLoad, IsPow2, Pow2, Free;
  }

  /** The mutex is free: j enters and pushes. */
  lemma FreeOvertakes(s: State, i: nat, j: nat, q: nat, t: Task, u: Task)
    requires Beatable(s, i, j, q, t, u) && s.submitters[j] == Holding(u) && Free(s, q)
    ensures CanOvertake(s, q, u, t)
  {
    hide QueueOfLoad, IsPow2, Pow2, CanOvertake, MutexOk, Free;
    var l := Submit(j);
    assert Enabled(s, l);
    StepShaped(s, l);
    MutexOkStep(s, l, q);
    assert Step(s, l).submitters == s.submitters[j := Inside(u)];
    InsidePushes(Step(s, l), i, j, q, t, u);
    OneStepEarlier(s, l, q, u, t);
  }

  /** The worker is about to leave the section. */
  lemma WorkerLeaves(s: State, i: nat, j: nat, q: nat, t: Task, u: Task)
    requires Beatable(s, i, j, q, t, u) && s.submitters[j] == Holding(u)
    requires s.workers[q].Blocking? || s.workers[q].Taking?
    ensures CanOvertake(s, q, u, t)
  {
    hide QueueOfLoad, IsPow2, Pow2, CanOvertake, Beatable;
    BeatableParts(s, i, j, q, t, u);
    var l := WorkerStep(q);
    assert Enabled(s, l);
    BeatableStep(s, l, i, j, q, t, u);
    SubmittersAside(s, l);
    InsideSame(s, Step(s, l), q);
    assert Free(Step(s, l), q);
    FreeOvertakes(Step(s, l), i, j, q, t, u);
    OneStepEarlier(s, l, q, u, t);
  }

  lemma BeatableParts(s: State, i: nat, j: nat, q: nat, t: Task, u: Task)
    requires Beatable(s, i, j, q, t, u)
    ensures Shaped(s) && q < |s.queues| && MutexOk(s, q) && i < |s.submitters| && j < |s.submitters|
    ensures s.submitters[i] == Holding(t)
  {
  }

  lemma WorkerDecides(s: State, i: nat, j: nat, q: nat, t: Task, u: Task)
    requires Beatable(s, i, j, q, t, u) && s.submitters[j] == Holding(u) && s.workers[q].Testing?
    ensures CanOvertake(s, q, u, t)
  {
    hide QueueOfLoad, IsPow2, Pow2, CanOvertake, Beatable, MutexOk;
    BeatableParts(s, i, j, q, t, u);
    var l := WorkerStep(q);
    assert Enabled(s, l);
    BeatableStep(s, l, i, j, q, t, u);
    WorkerLeaves(Step(s, l), i, j, q, t, u);
    OneStepEarlier(s, l, q, u, t);
  }

  /** Another submitter is inside: it pushes its task and leaves. */
  lemma SubmitterLeaves(s: State, i: nat, j: nat, m: nat, q: nat, t: Task, u: Task)
    requires Beatable(s, i, j, q, t, u) && s.submitters[j] == Holding(u)
    requires m < |s.submitters| && SubmitterInside(s, m, q)
    ensures CanOvertake(s, q, u, t)
  {
    hide QueueOfLoad, IsPow2, Pow2, CanOvertake, Beatable;
    BeatableParts(s, i, j, q, t, u);
    var l := Submit(m);
    assert Enabled(s, l);
    BeatableStep(s, l, i, j, q, t, u);
    SubmitOnlyWakes(s, m, q);
    PushLeavesHands(s, m, t);
    forall k | 0 <= k < |s.submitters|
      ensures !SubmitterInside(Step(s, l), k, q)
    {
      SubmitEnters(s, m, k, q);
      if k != m && SubmitterInside(s, k, q) { OnlyOneInside(s, k, m, q); }
    }
    assert Free(Step(s, l), q);
    FreeOvertakes(Step(s, l), i, j, q, t, u);
    OneStepEarlier(s, l, q, u, t);
  }

  lemma BeatableIsBeaten(s: State, i: nat, j: nat, q: nat, t: Task, u: Task)
    requires Beatable(s, i, j, q, t, u)
    ensures CanOvertake(s, q, u, t)
  {
    if s.submitters[j] == Inside(u) {
      InsidePushes(s, i, j, q, t, u);
    } else if s.workers[q].Testing? {
      WorkerDecides(s, i, j, q, t, u);
    } else if WorkerInside(s.workers[q]) {
      WorkerLeaves(s, i, j, q, t, u);
    } else if m: nat :| m < |s.submitters| && SubmitterInside(s, m, q) {
      SubmitterLeaves(s, i, j, m, q, t, u);
    } else {
      FreeOvertakes(s, i, j, q, t, u);
    }
  }

  // ---------- the condition ----------

  lemma {:induction false} TwoInTotal(counts: seq<nat>, a: nat, b: nat)
    requires a < |counts| && b < |counts| && a != b
    ensures counts[a] + counts[b] <= Total(counts)
  {
    var n := |counts| - 1;
    if a == n {
      TotalBounds(counts[..n], b);
    } else if b == n {
      TotalBounds(counts[..n], a);
    } else {
      TwoInTotal(counts[..n], a, b);
    }
  }

  /** A task in a submitter's hand is nowhere else. */
  lemma HeldOnce(states: seq<State>, labels: seq<Label>, k: nat, i: nat, q: nat, t: Task)
    requires Run(states, labels) && k < |states| && i < |states[k].submitters| && q < |states[0].queues|
    requires Holds(states[k].submitters[i], t)
    ensures Shaped(states[k]) && q < |states[k].pushed| && t !in states[k].pushed[q]
    ensures forall m :: 0 <= m < |states[k].submitters| && m != i ==> !Holds(states[k].submitters[m], t)
  {
    hide Step, Enabled;
    var s := states[k];
    RunShaped(states, labels, k);
    EntersOnce(states, labels, k, t);
    TotalBounds(SubmitterCounts(s.submitters, t), i);
    EnteredBounds(s, q, t);
    TotalBounds(QueueCounts(s.pushed, t), q);
    if t in s.pushed[q] {
      var y: nat :| y < |s.pushed[q]| && s.pushed[q][y] == t;
      CountOfMember(s.pushed[q], y);
    }
    forall m | 0 <= m < |s.submitters| && m != i
      ensures !Holds(s.submitters[m], t)
    {
      TwoInTotal(SubmitterCounts(s.submitters, t), i, m);
    }
  }

  /** Submitters i and j are both before their push of t and u to queue q. */
  ghost predicate Overlap(s: State, i: nat, j: nat, q: nat, t: Task, u: Task) {
    && i < |s.submitters| && j < |s.submitters| && q < |s.queues| && t != u
    && Holds(s.submitters[i], t) && Holds(s.submitters[j], u) && QueueOf(s, t) == QueueOf(s, u) == q
  }

  /**
   In every run: while two loads to one queue overlap, one holding t and one holding u, some continuation pushes u
   first if and only if the other has not yet entered the queue's section with t.
   */
  lemma OvertakesIff(states: seq<State>, labels: seq<Label>, k: nat, i: nat, j: nat, q: nat, t: Task, u: Task)
    requires Run(states, labels) && k < |states| && Overlap(states[k], i, j, q, t, u)
    ensures CanOvertake(states[k], q, u, t) <==> states[k].submitters[i].Holding?
  {
    hide CanOvertake, Step, Enabled, QueueOfLoad;
    var s := states[k];
    RunShaped(states, labels, k);
    RunMutexOk(states, labels, k, q);
    HeldOnce(states, labels, k, i, q, t);
    HeldOnce(states, labels, k, j, q, u);
    if s.submitters[i].Holding? {
      BeatableIsBeaten(s, i, j, q, t, u);
    } else {
      AheadIsNotOvertaken(s, i, q, t, u);
    }
  }

  /** The caller's side: what was pushed to a queue first is taken first, if the queue's own worker takes both. */
  lemma PushedFirstTakenFirst(states: seq<State>, labels: seq<Label>, k: nat, q: nat, u: Task, t: Task, x: nat, y: nat)
    requires Run(states, labels) && k < |states| && q < |states[0].queues| && t != u
    requires |states[k].pushed| == |states[k].ownTaken| == |states[0].queues| && Precedes(states[k].pushed[q], u, t)
    requires x < |states[k].ownTaken[q]| && y < |states[k].ownTaken[q]|
    requires states[k].ownTaken[q][x] == u && states[k].ownTaken[q][y] == t
    ensures x < y
  {
    hide Step, Enabled, Embeds, Count, Entered;
    OwnWorkerInPushOrder(states, labels, k, q);
    RunShaped(states, labels, k);
    var record := states[k].pushed[q];
    var z :| 0 <= z < |record| && record[z] == u && t !in record[..z];
    var b, c := record[..z + 1], record[z + 1..];
    assert record == b + c && b == record[..z] + [u];
    assert b[z] == u;
    EntersOnce(states, labels, k, u);
    EnteredBounds(states[k], q, u);
    EmbeddedOrder(states[k].ownTaken[q], b, c, u, t, x, y);
  }
}

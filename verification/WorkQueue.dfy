/** The queue of one worker and the executor's `load`, as objects. */
module WorkQueue {
  import opened Wrappers
  import opened Bits
  import opened PowerOfTwo
  import opened RoundRobin

  /** What the owner's pop finds and leaves: the front, or nothing. */
  function Front<T>(tasks: seq<T>): (r: (Option<T>, seq<T>))
    ensures if tasks == [] then r == (None, []) else r.0.Some? && tasks == [r.0.value] + r.1
  {
    if tasks == [] then (None, []) else (Some(tasks[0]), tasks[1..])
  }

  /** What a thief finds and leaves: the back, or nothing. */
  function Back<T>(tasks: seq<T>): (r: (Option<T>, seq<T>))
    ensures if tasks == [] then r == (None, []) else r.0.Some? && tasks == r.1 + [r.0.value]
  {
    if tasks == [] then (None, []) else (Some(tasks[|tasks| - 1]), tasks[..|tasks| - 1])
  }

  class WorkQueue<T> {
    var tasks: seq<T>
    ghost var pushed: seq<T>

    constructor ()
      ensures tasks == [] && pushed == []
    {
      tasks, pushed := [], [];
    }

    method Push(task: T)
      modifies this
      ensures tasks == old(tasks) + [task] && pushed == old(pushed) + [task]
    {
      tasks := tasks + [task];
      pushed := pushed + [task];
    }

    /** `pop` once its wait has ended: there are tasks, or the executor is stopping. */
    method Pop(running: bool) returns (task: Option<T>)
      requires tasks != [] || !running
      modifies this`tasks
      ensures (task, tasks) == Front(old(tasks))
      ensures running ==> task.Some?
    {
      if tasks == [] { return None; }
      task := Some(tasks[0]);
      tasks := tasks[1..];
    }

    /** True exactly when neither the owner nor a thief would find a task. */
    method Empty() returns (empty: bool)
      ensures empty <==> Front(tasks).0.None?
      ensures empty <==> Back(tasks).0.None?
    {
      empty := |tasks| == 0;
    }

    /** `try_steal`; the lock may not be had. */
    method TrySteal(ownsLock: bool) returns (task: Option<T>)
      modifies this`tasks
      ensures if ownsLock then (task, tasks) == Back(old(tasks)) else task == None && tasks == old(tasks)
    {
      if !ownsLock || tasks == [] { return None; }
      task := Some(tasks[|tasks| - 1]);
      tasks := tasks[..|tasks| - 1];
    }
  }

  /** The loaded tasks that belong to queue q, oldest first. */
  function Share<T>(loaded: seq<T>, q: nat, queues: nat): seq<T>
    requires queues >= 1
  {
    if loaded == [] then []
    else
      var n := |loaded| - 1;
      Share(loaded[..n], q, queues) + (if QueueOfLoad(n, queues) == q then [loaded[n]] else [])
  }

  /** A queue's share grows as the round-robin counts say. */
  lemma {:induction false} ShareSize<T>(loaded: seq<T>, q: nat, queues: nat)
    requires queues >= 1
    ensures |Share(loaded, q, queues)| == Loads(|loaded|, q, queues)
  {
    if loaded != [] { ShareSize(loaded[..|loaded| - 1], q, queues); }
  }

  method BuildQueues<T>(n: nat) returns (built: seq<WorkQueue<T>>)
    ensures |built| == n && fresh(built)
    ensures forall p, q :: 0 <= p < q < n ==> built[p] != built[q]
    ensures forall q :: 0 <= q < n ==> built[q].tasks == [] && built[q].pushed == []
  {
    built := [];
    for i := 0 to n
      invariant |built| == i && fresh(built)
      invariant forall p, q :: 0 <= p < q < i ==> built[p] != built[q]
      invariant forall q :: 0 <= q < i ==> built[q].tasks == [] && built[q].pushed == []
    {
      var queue := new WorkQueue<T>();
      built := built + [queue];
    }
  }

  class TaskExecutor<T> {
    var index: nat
    var queues: seq<WorkQueue<T>>
    ghost var loaded: seq<T>

    /** Whatever workers have taken out: queue q was given its share of all loads, the counter is their number in a 32-bit word. */
    ghost predicate Dealt()
      reads this, queues
    {
      && IsPow2(|queues|) && |queues| <= Pow2(31)
      && index == |loaded| % Pow2(32)
      && (forall p, q :: 0 <= p < q < |queues| ==> queues[p] != queues[q])
      && forall q :: 0 <= q < |queues| ==> queues[q].pushed == Share(loaded, q, |queues|)
    }

    /** With more than 2^31 threads asked for, the round-up yields 0 and there is no queue at all. */
    constructor (threadCount: nat)
      requires FitsWord(threadCount, 32)
      ensures loaded == [] && forall q :: q in queues ==> fresh(q) && q.tasks == []
      ensures if threadCount <= Pow2(31) then Dealt() && LeastPow2AtLeast(|queues|, threadCount) else queues == []
    {
      hide Pow2, IsPow2, LeastPow2AtLeast;
      var adjusted := NextPwrOf2(threadCount);
      var built := BuildQueues<T>(adjusted);
      queues := built;
      index, loaded := 0, [];
      new;
      ZeroInWord();
      AdjustedIsPow2(threadCount, adjusted);
    }

    /** `load`: the masked counter picks the queue, then it advances with wrap-around. */
    method Load(task: T)
      requires Dealt()
      modifies this`index, this`loaded, queues
      ensures Dealt() && loaded == old(loaded) + [task] && queues == old(queues)
      ensures forall q :: 0 <= q < |queues| ==>
        queues[q].tasks == old(queues[q].tasks) + if q == |old(loaded)| % |queues| then [task] else []
    {
      hide Pow2, IsPow2, Share;
      PowersArePositive(|queues|);
      var q := And(index, |queues| - 1);
      LoadStaysFresh(loaded, task, |queues|);
      index := NextIndex(index);
      queues[q].Push(task);
      loaded := loaded + [task];
    }

    /** A worker's pop from its own queue, at the end of its wait. */
    method TakeOwn(own: WorkQueue<T>, running: bool) returns (task: Option<T>)
      requires own.tasks != [] || !running
      modifies own`tasks
      ensures old(Dealt()) ==> Dealt()
      ensures (task, own.tasks) == Front(old(own.tasks))
    {
      hide IsPow2, Pow2, Share;
      task := own.Pop(running);
    }

    ghost predicate TasksAre(before: seq<seq<T>>)
      reads this, queues
    {
      |before| == |queues| && forall q :: 0 <= q < |queues| ==> queues[q].tasks == before[q]
    }

    /**
     The steal scan: the other queues in order, until one yields a task or `_running` is found clear before
     attempt `limit`. `locks` tells where `try_lock` succeeds.
     */
    method StealScan(self: nat, limit: nat, locks: seq<bool>, ghost before: seq<seq<T>>) returns (task: Option<T>, ghost victim: nat)
      requires Dealt() && self < |queues| == |locks| && TasksAre(before)
      modifies queues
      ensures Dealt()
      ensures task == None ==>
        && TasksAre(before)
        && forall q :: 0 <= q < |queues| && Scanned(self, q, limit, |queues|) && locks[q] ==> before[q] == []
      ensures task.Some? ==>
        && victim < |queues| && victim != self && locks[victim]
        && before[victim] == queues[victim].tasks + [task.value]
        && TasksAre(before[victim := queues[victim].tasks])
    {
      hide IsPow2, Pow2, Share, ScanTarget, Scanned;
      task, victim := None, 0;
      ScannedNone(self, |queues|);
      var i := 1;
      while i < |queues| && i < limit
        invariant 1 <= i <= |queues| && (i <= limit || i == 1) && Dealt() && TasksAre(before) && task == None
        invariant forall q :: 0 <= q < |queues| && Scanned(self, q, i, |queues|) && locks[q] ==> before[q] == []
      {
        var target := ScanTarget(self, i, |queues|);
        ScanTargetIs(self, i, |queues|);
        victim := target;
        var other: WorkQueue<T> := queues[target];
        task := other.TrySteal(locks[target]);
        if task.Some? { return; }
        forall q | 0 <= q < |queues| && Scanned(self, q, i + 1, |queues|) && locks[q]
          ensures before[q] == []
        {
          ScannedNext(self, i, |queues|, target, q);
        }
        i := i + 1;
      }
      ScannedAll(self, i, limit, |queues|);
    }
  }

  /** The scan has tried queue q in its first i - 1 attempts. */
  predicate Scanned(self: nat, q: nat, i: nat, queues: nat)
    requires self < queues && q < queues
  {
    if q == self then false else if q > self then q - self < i else q + queues - self < i
  }

  lemma ScanTargetIs(self: nat, i: nat, queues: nat)
    requires self < queues && 1 <= i < queues
    ensures ScanTarget(self, i, queues) == if self + i < queues then self + i else self + i - queues
  {
    if self + i < queues {
      DivUnique(self + i, queues, 0, self + i);
    } else {
      DivUnique(self + i, queues, 1, self + i - queues);
    }
  }

  lemma ScannedNext(self: nat, i: nat, queues: nat, target: nat, q: nat)
    requires self < queues && 1 <= i < queues && q < queues
    requires target == if self + i < queues then self + i else self + i - queues
    ensures Scanned(self, q, i + 1, queues) == (Scanned(self, q, i, queues) || q == target)
  {
  }

  lemma ScannedNone(self: nat, queues: nat)
    requires self < queues
    ensures forall q :: 0 <= q < queues ==> !Scanned(self, q, 1, queues)
  {
  }

  lemma ScannedAll(self: nat, i: nat, limit: nat, queues: nat)
    requires self < queues && (i >= queues || i >= limit)
    ensures forall q :: 0 <= q < queues && Scanned(self, q, limit, queues) ==> Scanned(self, q, i, queues)
  {
  }

  /** `_index.fetch_add(1)` on 32 bits. */
  function NextIndex(index: nat): nat {
    (index + 1) % Pow2(32)
  }

  lemma PowersArePositive(n: nat)
    requires IsPow2(n)
    ensures n >= 1
  {
  }

  lemma ZeroInWord()
    ensures 0 % Pow2(32) == 0
  {
    DivUnique(0, Pow2(32), 0, 0);
  }

  lemma AdjustedIsPow2(n: nat, p: nat)
    requires RoundsUpInWord(p, n, 32)
    ensures if n <= Pow2(31) then IsPow2(p) && p <= Pow2(31) && LeastPow2AtLeast(p, n) else p == 0
  {
  }

  lemma LoadedQueue(i: nat, queues: nat)
    requires queues >= 1 && IsPow2(queues) && queues <= Pow2(31)
    ensures QueueOfLoad(i, queues) == i % queues < queues
  {
    var k: nat :| queues == Pow2(k);
    if k > 31 { Pow2StrictlyMonotone(31, k); }
    MaskedCounter(i, k);
  }

  /** One more load goes to the queue the counter picks, and to no other. */
  lemma LoadStaysFresh<T>(loaded: seq<T>, task: T, queues: nat)
    requires queues >= 1 && IsPow2(queues) && queues <= Pow2(31)
    ensures QueueOfLoad(|loaded|, queues) == |loaded| % queues < queues
    ensures NextIndex(|loaded| % Pow2(32)) == (|loaded| + 1) % Pow2(32)
    ensures forall p: nat :: Share(loaded + [task], p, queues)
              == Share(loaded, p, queues) + if p == QueueOfLoad(|loaded|, queues) then [task] else []
  {
    hide Pow2, IsPow2, QueueOfLoad;
    LoadedQueue(|loaded|, queues);
    NextInWord(|loaded|, Pow2(32));
    assert (loaded + [task])[..|loaded|] == loaded;
  }

  lemma NextInWord(n: nat, m: nat)
    requires m > 0
    ensures (n % m + 1) % m == (n + 1) % m
  {
    NextQuotient(n, m);
    if n % m + 1 < m { DivUnique(n % m + 1, m, 0, n % m + 1); } else { DivUnique(m, m, 1, 0); }
  }
}

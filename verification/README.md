# Verified model of the C++ utility library's concurrent and numerical core

Dafny models of the parts of the library whose behaviour is hardest to see from the code, with proofs over every
input, every run or every reachable state. `dafny verify dfyconfig.toml` checks the project.

* **Work-stealing deque** (`DequeMachine`, `AtomicDeque`, `DequeProof`, `DequeAlone`, `DequeProgress`,
  `LockFreeWorkQueue`). One owner and any number of thieves, one sequentially consistent step per atomic access, with
  arrays replaced in mid-race kept for the thieves that still hold them. Every interleaving refines an atomic deque
  (push-back, pop-back, steal-front; only steal may fail without reason), so items are conserved; and a steal that loses
  its race loses it to an operation that took an item. Capacity, space bound and what a stale array may be used for are
  invariants of the same proof. `LockFreeWorkQueue` is the class itself, with its in-place buffer and its copy loop.
* **Matrices and Kalman filters** (`Sums`, `Determinant`, `MatrixAlgebra`, `Inverse`, `InverseProof`, `Singular`,
  `MatrixCode`, `ScalarKalman`, `MatrixKalman`, `KalmanGain`, `KalmanPsd`). Determinants of any dimension over the reals, up
  to `M adj(M) = adj(M) M = det(M) I`; the nested loops over scratch matrices that never shrink are proved against them.
  Symmetry and positive semidefiniteness of the filter's covariance over whole runs.
* **Executor** (`Bits`, `PowerOfTwo`, `RoundRobin`, `WorkQueue`, `Executor`, `ExecutorProof`, `ExecutorLoads`,
  `ExecutorOvertake`, `ExecutorStop`).
  Submitters, workers and a stopping thread around one mutex and condition variable per queue; the bit arithmetic of the
  round robin.
* **Publish/subscribe stack** (`EventFrame`, `Framing`, `TopicRegistry`, `Broker`, `BrokerDelivery`, `Transport`,
  `ByteBroker`). Frame codec, length-prefixed byte stream, routing table, the broker with all its connections as interleaved steps, and the
  transports at both ends, up to one theorem from a publisher's application to a subscriber's handler, over whole messages
  and over byte streams cut anywhere.
* **Serial `readline`** (`Readline`): both versions of the terminator matcher against one specification of the line.
* **Active object** (`ActiveRunnable`): one worker, its notifiers and `stop` around one monitor.

`Counting` and `Wrappers` are shared vocabulary.

## How the code is read

* `AtomicDeque.AtomicNext` is the specification object of the deque; `DequeProof.Abstract` maps a machine state to it.
* `_array.store(newArray)` (LockFreeWorkQueue.hpp:120) stores a `unique_ptr` in an atomic `shared_ptr`; it is read as
  publishing the new array.
* Time passes in labelled steps. A machine's `Enabled`/`Step` or `Next` gives the steps, `Run` the runs that start in
  `Init`. Critical sections that touch one lock's data only are one step or are bracketed by explicit holders.
* Reals stand for `T`; `pow(-1, k)` is the sign of k's parity. `Matrix::operator=` has no return statement
  (matrix.hpp:138-146); it is read as an assignment. Size checks are taken as enabled (`MATH_EXCEPTION_ENABLE`).
* Sizes and counters that can wrap wrap explicitly: the deque's indices (`Previous`, `Following`, `Distance`), the
  32-bit load counter, both power-of-two round-ups, the 32-bit message size.

## What turned out not to hold

Each is stated with its exact condition and, where a reader needs one, a concrete instance.

* `pop` before the first push wraps `_bottom - 1` and reports success with an uninitialised cell: `DequeAlone.PopAloneBeforePush`;
  it is correct if and only if something was pushed before: `DequeAlone.PopCorrectIffPushed`.
* `inverse` overwrites a corner when the determinant is 1. That is an inverse exactly when the corner is 1 and the matrix
  is its own inverse; a 1 x 1 matrix other than [1] is never inverted: `InverseProof.InverseCorrectIff`, with
  `InverseProof.UnitDeterminantExample`.
* Both power-of-two round-ups return 0 above half their word's range: `PowerOfTwo.NextPwrOf2`, `PowerOfTwo.NextPowerOf2`.
* A message survives framing if and only if it is shorter than 2^32 bytes: `Framing.MessageSurvivesIffShort`.
* `readline` returns the consumed bytes for "\r\n" if and only if no '\r' among them is followed by a byte other than
  '\r' and '\n': `Readline.LineIsConsumedIff`; "\rA" comes back as "\r\rA": `Readline.LoneReturnIsDoubled`.
* `ActiveRunnable` waits under an `if`, so a spurious wakeup can make it index an empty vector: exactly when it comes while
  running and without a task, `ActiveRunnable.SpuriousWakeFatalIff`, with the run
  `ActiveRunnable.SpuriousWakeIndexesEmpty`; without spurious wakeups it never happens, `ActiveRunnable.NeverIndexesEmpty`.
* `stop` can leave a worker asleep, because `_running` is not guarded by the lock the worker waits with. For the executor,
  a worker can go to sleep after stop's notify of its queue if and only if it had by then decided to wait and was not yet
  asleep: `ExecutorStop.StopMissesWorkerIff`, with the run `ExecutorStop.StopCanMissItsWorker`. For the active object, if
  and only if the worker had seen `_running` set, did not hold the mutex and there was no task:
  `ActiveRunnable.StopMissesTheWorkerIff`, with the run `ActiveRunnable.StopCanMissTheWorker`.
* With several loading threads a queue's own worker does not always take in the order of load numbers. While two loads to
  one queue overlap, either can be pushed before the other if and only if the other has not entered the queue's section:
  `ExecutorOvertake.OvertakesIff`, with the run `ExecutorLoads.OverlappingLoadsCanSwap`. What is pushed first is taken first,
  `ExecutorOvertake.PushedFirstTakenFirst`, and loads that do not overlap keep their order,
  `ExecutorLoads.LaterLoadTakenLater`.
* The matrix filter's gain does not always solve K S = P transpose(H). It does so for every right-hand side if and only if
  S has more than one row and a determinant other than 1, or determinant 1, corner 1 and S * S = I: `KalmanGain.GainSolvesIff`.
  With one measured quantity that leaves S = [1], `KalmanGain.OneByOneInvertedIff`; for any other S that does not
  make `inverse` throw the gain is zero and the measurement is ignored, `KalmanGain.OneMeasurementIsIgnored`.

## Model

| member | source | states |
|---|---|---|
| DequeProof.EveryRunRefines | common/include/common/container/LockFreeWorkQueue.hpp:110-196 | every interleaving of one owner's push and pop steps with any thieves' steal steps maps, step by step, to a run of the atomic deque with the same calls and returns; its spec lets only steal fail without reason |
| DequeProof.StepRefines | common/include/common/container/LockFreeWorkQueue.hpp:110-196 | one step of any thread keeps the invariant and is one step of the atomic deque or invisible there |
| DequeProof.RunConserves | common/include/common/container/LockFreeWorkQueue.hpp:110-196 | in every run each item was pushed exactly as often as it was returned plus as often as it is still inside |
| DequeProof.TakenWasGiven | common/include/common/container/LockFreeWorkQueue.hpp:139-196 | nothing unpushed is returned and nothing is returned more often than it was pushed |
| DequeProof.QuiescentBalance | common/include/common/container/LockFreeWorkQueue.hpp:110-196 | with no operation in progress, pushed = popped + stolen + what the current array holds from top to bottom |
| DequeProof.CapacityAlways | common/include/common/container/LockFreeWorkQueue.hpp:117-123 | in every reachable state the capacity is a power of two, the initial one doubled once per resize, and the live range is at most three quarters of it |
| DequeProof.SpaceBound | common/include/common/container/LockFreeWorkQueue.hpp:117-135 | between operations, after any resize, 3 * capacity <= 8 * maxSize |
| DequeProof.StaleArrayReadsRightItem | common/include/common/container/LockFreeWorkQueue.hpp:178-187 | a thief holding any array, also a replaced one, reads the front item for the index its CAS can still win |
| DequeProof.CopyLoopCopies | common/include/common/container/LockFreeWorkQueue.hpp:67-78 | after doubling every live index maps to the same item |
| DequeProof.PutKeepsOthers | common/include/common/container/LockFreeWorkQueue.hpp:62-65 | a put within capacity overwrites no other live slot |
| DequeProof.OwnerNeverStuck | common/include/common/container/LockFreeWorkQueue.hpp:110-173 | in every valid state an owner inside an operation has a next step, so its buffer accesses are in range |
| DequeProof.ThiefNeverStuck | common/include/common/container/LockFreeWorkQueue.hpp:176-196 | the same for a thief inside steal |
| DequeProgress.FailedStealMeansProgress | common/include/common/container/LockFreeWorkQueue.hpp:178-192 | a steal whose CAS fails was overtaken: between its reading of `_top` and the failure the owner's pop or another thief's steal took an item |
| AtomicDeque.AtomicStepConserves | common/include/common/container/LockFreeWorkQueue.hpp:110-196 | no step of the specification creates, copies or loses an item |
| DequeAlone.PushAloneAppends | common/include/common/container/LockFreeWorkQueue.hpp:110-136 | an uninterrupted push, with or without resize, is a run of the machine and appends its item |
| DequeAlone.PopAloneAfterPush | common/include/common/container/LockFreeWorkQueue.hpp:139-173 | after some push an uninterrupted pop takes the newest item, or fails on an empty deque |
| DequeAlone.PopAloneBeforePush | common/include/common/container/LockFreeWorkQueue.hpp:141-165 | before the first push the decrement wraps and pop reports success |
| DequeAlone.PopCorrectIffPushed | common/include/common/container/LockFreeWorkQueue.hpp:139-173 | on an idle deque pop is a pop-back if and only if there was a push before |
| DequeAlone.StealAloneTakesFront | common/include/common/container/LockFreeWorkQueue.hpp:176-196 | an uninterrupted steal takes the oldest item and fails only on an empty deque |
| DequeAlone.StealAloneIsRun | common/include/common/container/LockFreeWorkQueue.hpp:176-196 | an uninterrupted steal is a run of the thief's steps with that result |
| LockFreeWorkQueue.CircularArray.Get | common/include/common/container/LockFreeWorkQueue.hpp:57-60 | reads the cell of an index modulo the size |
| LockFreeWorkQueue.CircularArray.Put | common/include/common/container/LockFreeWorkQueue.hpp:62-65 | writes that cell and no other |
| LockFreeWorkQueue.CircularArray.Resize | common/include/common/container/LockFreeWorkQueue.hpp:67-78 | the copy loop yields a buffer of twice the size that holds every index from top to bottom |
| LockFreeWorkQueue.LockFreeWorkQueue.constructor | common/include/common/container/LockFreeWorkQueue.hpp:89-92 | an empty deque whose capacity is the least power of two that is at least the initial size |
| LockFreeWorkQueue.LockFreeWorkQueue.Push | common/include/common/container/LockFreeWorkQueue.hpp:110-136 | appends, doubles exactly from three quarters on, tracks the maximum size |
| LockFreeWorkQueue.LockFreeWorkQueue.Pop | common/include/common/container/LockFreeWorkQueue.hpp:139-173 | takes the newest item once anything was pushed; without a push does what the wrapped index does |
| LockFreeWorkQueue.LockFreeWorkQueue.Steal | common/include/common/container/LockFreeWorkQueue.hpp:176-196 | takes the oldest item |
| PowerOfTwo.NextPowerOf2 | common/include/common/container/LockFreeWorkQueue.hpp:96-107 | the least power of two that is at least n up to 2^63, and 0 above |
| PowerOfTwo.NextPwrOf2 | common/src/utils/Misc.cpp:29-38 | the least power of two that is at least n up to 2^31, and 0 above |
| PowerOfTwo.Smear | common/src/utils/Misc.cpp:33-36 | each shift-and-or step doubles the run of leading ones and keeps the bit length |
| RoundRobin.MaskedCounter | common/include/common/threading/TaskExecutor.hpp:143 | the masked 32-bit counter is the load number modulo the number of queues, across the wrap |
| RoundRobin.LoadsExactly | common/include/common/threading/TaskExecutor.hpp:141-145 | how many of the first n loads each queue gets |
| RoundRobin.PerfectRoundRobin | common/include/common/threading/TaskExecutor.hpp:141-145 | after any number of loads the counts of two queues differ by at most one |
| RoundRobin.ScanVisitsEachOtherQueueOnce | common/include/common/threading/TaskExecutor.hpp:105-116 | a steal scan visits every other queue exactly once and never its own |
| WorkQueue.WorkQueue.Push | common/include/common/container/WorkQueue.hpp:63-78 | appends to the tasks and to the record of what was pushed |
| WorkQueue.WorkQueue.Pop | common/include/common/container/WorkQueue.hpp:95-99 | takes what `Executor.WorkerNext` takes: the front, or nothing when stopping on an empty queue; while running it always yields a task |
| WorkQueue.WorkQueue.Empty | common/include/common/container/WorkQueue.hpp:109-113 | true exactly when neither the owner's pop nor a thief's steal would find a task |
| WorkQueue.WorkQueue.TrySteal | common/include/common/container/WorkQueue.hpp:123-133 | with the lock takes what a stealing worker of the machine takes: the back, or nothing on an empty queue; without it nothing |
| WorkQueue.TaskExecutor.constructor | common/include/common/threading/TaskExecutor.hpp:81-92 | the least power of two that is at least the thread count many empty queues; above 2^31 none |
| WorkQueue.TaskExecutor.Load | common/include/common/threading/TaskExecutor.hpp:141-145 | whatever workers have taken, each queue was given exactly its round-robin share of all loads, in load order, across the counter's wrap; only the chosen queue grows |
| WorkQueue.TaskExecutor.TakeOwn | common/include/common/threading/TaskExecutor.hpp:100 | a worker's pop keeps the shares dealt |
| WorkQueue.TaskExecutor.StealScan | common/include/common/threading/TaskExecutor.hpp:103-116 | the scan takes one task from the back of another queue, or touches nothing and every other queue it could lock before `_running` was clear is empty |
| WorkQueue.ShareSize | common/include/common/threading/TaskExecutor.hpp:141-145 | a queue's share has the size the round-robin count gives |
| ExecutorProof.EachTaskInOnePlace | common/include/common/threading/TaskExecutor.hpp:97-118 | in every interleaving of load, workers and stop each loaded task is in exactly one place: a submitter's or worker's hand, one queue, or finished |
| ExecutorProof.StepPlaces | common/include/common/container/WorkQueue.hpp:63-133 | no step creates, copies or loses a task, except that a load creates its own |
| ExecutorProof.RunsAtMostOnce | common/include/common/threading/TaskExecutor.hpp:97-118 | no task runs twice; when the executor has drained, each loaded task has run exactly once |
| ExecutorProof.OwnWorkerInPushOrder | common/include/common/container/WorkQueue.hpp:63-133 | a queue's own worker takes its tasks in push order while thieves take from the back |
| ExecutorOvertake.OvertakesIff | common/include/common/container/WorkQueue.hpp:69-74 | in every run, while two loads to one queue overlap, some continuation pushes one task before the other if and only if the other's thread has not entered the queue's section |
| ExecutorOvertake.PushedFirstTakenFirst | common/include/common/container/WorkQueue.hpp:89-100 | of two tasks a queue's own worker takes, it takes the one pushed first first |
| ExecutorOvertake.RunMutexOk | common/include/common/container/WorkQueue.hpp:70-93 | in every reachable state at most one thread is inside a queue's critical sections |
| ExecutorLoads.LaterLoadTakenLater | common/include/common/threading/TaskExecutor.hpp:141-145 | over all interleavings, of two loads to one queue that do not overlap the own worker never takes the later one first |
| ExecutorProof.OwnWorkerInLoadOrder | common/include/common/threading/TaskExecutor.hpp:141-145 | with one loading thread the own worker takes in the order of load numbers |
| ExecutorLoads.OverlappingLoadsCanSwap | common/include/common/threading/TaskExecutor.hpp:143-144 | an instance: a run in which of two overlapping loads the later number is taken first |
| ExecutorLoads.EntersOnce | common/include/common/container/WorkQueue.hpp:69-74 | each load's task is pushed at most once, to one queue |
| ExecutorLoads.SubmitterWaitsOnlyForMutex | common/include/common/container/WorkQueue.hpp:63-78 | in every reachable state each load's queue exists and a loading thread can go on exactly when it is not before a held mutex |
| ExecutorProof.AtMostOneAfterStop | common/include/common/threading/TaskExecutor.hpp:98-117 | after stop clears `_running` each worker removes at most one more task from any queue |
| ExecutorProof.SleeperIsOwedNotify | common/include/common/container/WorkQueue.hpp:69-93 | in every reachable state, if a worker is blocked while its queue is not empty, some pusher still owes that queue a notify |
| ExecutorStop.StopMissesWorkerIff | common/include/common/threading/TaskExecutor.hpp:154-166 | in every run, after stop's notify of worker w some continuation puts w to sleep if and only if w had decided to wait and was not yet asleep |
| ExecutorStop.StaysAwake | common/include/common/container/WorkQueue.hpp:91-93 | with `_running` clear a worker past its wait never sleeps again, whatever happens |
| ExecutorStop.StopWaitsForMissedWorker | common/include/common/threading/TaskExecutor.hpp:160-164 | stop then waits for w as long as neither a load to its queue nor a spurious wakeup comes |
| ExecutorStop.StopCanMissItsWorker | common/include/common/threading/TaskExecutor.hpp:158-164 | an instance: a run after which only a spurious wakeup can happen |
| Inverse.TimesAdjugate | extension/math/include/common/extension/math/matrix.hpp:381-414 | M times its adjugate is det(M) times the identity, for every dimension |
| Inverse.AdjugateTimes | extension/math/include/common/extension/math/matrix.hpp:381-414 | the adjugate times M is det(M) times the identity |
| Inverse.LeadingBlockOnly | extension/math/include/common/extension/math/matrix.hpp:362-378 | the determinant does not depend on any cell outside the leading block |
| Inverse.DetOfTranspose | extension/math/include/common/extension/math/matrix.hpp:362-378 | a matrix and its transpose have the same determinant |
| Determinant.ExpandAlongRow | extension/math/include/common/extension/math/matrix.hpp:362-378 | Laplace expansion along any row gives the determinant `determine` defines by the first |
| Determinant.EqualRowsVanish | extension/math/include/common/extension/math/matrix.hpp:362-378 | with two equal rows the determinant is 0 |
| Determinant.DetTransposed | extension/math/include/common/extension/math/matrix.hpp:362-378 | expansion along rows and along columns agree |
| InverseProof.AdjugateOverDetInverts | extension/math/include/common/extension/math/matrix.hpp:436-437 | the adjugate over a determinant other than 0 is a two-sided inverse |
| InverseProof.InverseCorrectIff | extension/math/include/common/extension/math/matrix.hpp:417-439 | when what `inverse` returns is a two-sided inverse, both directions, over all branches |
| InverseProof.UnitBranchCorrectIff | extension/math/include/common/extension/math/matrix.hpp:428-433 | the matrix with its corner set to 1 is its inverse if and only if the corner was 1 and M * M is the identity |
| InverseProof.OneByOneWrong | extension/math/include/common/extension/math/matrix.hpp:383-409 | for a 1 x 1 matrix the cofactor branch never gives an inverse |
| InverseProof.UnitDeterminantExample | extension/math/include/common/extension/math/matrix.hpp:428-433 | [[2,1],[1,1]] has determinant 1 and what is returned for it is no inverse |
| InverseProof.InverseOfSymmetric | extension/math/include/common/extension/math/matrix.hpp:417-439 | every branch of `inverse` keeps symmetry |
| Singular.ThrowsIffSingular | extension/math/include/common/extension/math/matrix.hpp:419-423 | `inverse` throws if and only if no inverse exists |
| Singular.RightInverseNeedsDet | extension/math/include/common/extension/math/matrix.hpp:419-423 | a matrix with a right inverse has a determinant other than 0 |
| MatrixCode.Minor | extension/math/include/common/extension/math/matrix.hpp:341-359 | the running indices x, y write the matrix without row 0 and the column into the scratch buffer |
| MatrixCode.Determine | extension/math/include/common/extension/math/matrix.hpp:362-378 | the recursion over full-size scratch matrices returns the Laplace determinant of the leading block |
| MatrixCode.FillMinor | extension/math/include/common/extension/math/matrix.hpp:390-408 | the running indices row2, col2 write the matrix without one row and one column into the scratch buffer |
| MatrixCode.CofactorEntry | extension/math/include/common/extension/math/matrix.hpp:390-409 | one entry of the cofactor matrix, with its sign, from a reused scratch buffer |
| MatrixCode.Cofactor | extension/math/include/common/extension/math/matrix.hpp:381-414 | the loops return the adjugate for n >= 2 and 0 for n = 1 |
| MatrixCode.Invert | extension/math/include/common/extension/math/matrix.hpp:417-439 | the three branches of `inverse` and its exception |
| MatrixCode.Transposed | extension/math/include/common/extension/math/matrix.hpp:190-197 | the traversal fills the transpose |
| MatrixCode.Add | extension/math/include/common/extension/math/matrix.hpp:227-238 | the entrywise sum, or the size error |
| MatrixCode.Subtract | extension/math/include/common/extension/math/matrix.hpp:241-253 | the entrywise difference, or the size error |
| MatrixCode.Multiply | extension/math/include/common/extension/math/matrix.hpp:256-278 | the product, or the size error |
| MatrixCode.Divide | extension/math/include/common/extension/math/matrix.hpp:307-314 | every entry divided by the scalar |
| MatrixCode.Copy | extension/math/include/common/extension/math/matrix.hpp:101-111 | a fresh buffer with the same entries |
| MatrixKalman.KalmanFilter.Store | extension/math/include/common/extension/math/matrix.hpp:138-146 | assignment throws on a target of another size and leaves it alone, else copies all entries into it |
| MatrixAlgebra.ProductAssociative | extension/math/include/common/extension/math/matrix.hpp:256-278 | (AB)C = A(BC) |
| MatrixAlgebra.TransposeProduct | extension/math/include/common/extension/math/matrix.hpp:190-278 | transpose(AB) = transpose(B) transpose(A) |
| ScalarKalman.KalmanFilter.Run | extension/math/include/common/extension/math/filter/KalmanFilter.hpp:50-65 | with Q >= 0, R > 0, P >= 0 the estimate lies between prediction and measurement and the new P in [0, R) |
| ScalarKalman.EstimateBetween | extension/math/include/common/extension/math/filter/KalmanFilter.hpp:59 | a gain in [0, 1) puts the estimate between prediction and measurement |
| ScalarKalman.StepBounds | extension/math/include/common/extension/math/filter/KalmanFilter.hpp:53-62 | the gain stays in [0, 1) and P in [0, R) |
| ScalarKalman.CovarianceAfter | extension/math/include/common/extension/math/filter/KalmanFilter.hpp:53-62 | over any number of steps P stays non-negative, and below R after the first |
| ScalarKalman.ForgetsInitialCovariance | extension/math/include/common/extension/math/filter/KalmanFilter.hpp:53-62 | two filters that differ in the initial P only have covariances within (R/(Q+R))^(2n) of their initial gap after n steps |
| MatrixKalman.KalmanFilter.Run | extension/math/include/common/extension/math/filter/KalmanFilter.hpp:87-104 | one call over the buffers computes the filter step, first call and every exception included |
| MatrixKalman.KalmanFilter.constructor | extension/math/include/common/extension/math/filter/KalmanFilter.hpp:80-85 | the filter holds copies of its five matrices and expects its first call |
| MatrixKalman.KalmanFilter.Predict | extension/math/include/common/extension/math/filter/KalmanFilter.hpp:93 | A P transpose(A) + Q, or the size error |
| MatrixKalman.KalmanFilter.Gain | extension/math/include/common/extension/math/filter/KalmanFilter.hpp:96 | the gain, or the error of its products, its sum or its inverse |
| MatrixKalman.KalmanFilter.Correct | extension/math/include/common/extension/math/filter/KalmanFilter.hpp:99 | the corrected estimate, or the size error |
| MatrixKalman.KalmanFilter.Update | extension/math/include/common/extension/math/filter/KalmanFilter.hpp:100 | the updated covariance, or the size error |
| MatrixKalman.RunOnceKeepsSymmetry | extension/math/include/common/extension/math/filter/KalmanFilter.hpp:89-102 | a call that does not throw keeps P, Q and R symmetric |
| MatrixKalman.RunsKeepSymmetry | extension/math/include/common/extension/math/filter/KalmanFilter.hpp:87-104 | over any sequence of measurements on which `run` does not throw, P stays symmetric |
| KalmanGain.GainSolves | extension/math/include/common/extension/math/filter/KalmanFilter.hpp:96 | the gain times the innovation covariance S is P transpose(H) whenever `inverse` inverts S, the self-inverse matrices of determinant 1 included |
| KalmanGain.GainSolvesIff | extension/math/include/common/extension/math/filter/KalmanFilter.hpp:96 | multiplying by what `inverse` returns for S solves the gain equation for every right-hand side if and only if S is one of those |
| KalmanGain.OneByOneInvertedIff | extension/math/include/common/extension/math/matrix.hpp:417-439 | of the 1 x 1 matrices `inverse` inverts [1] only |
| KalmanGain.OneMeasurementNoGain | extension/math/include/common/extension/math/filter/KalmanFilter.hpp:96 | with one measured quantity and an S other than [1] the gain is zero |
| KalmanGain.OneMeasurementIsIgnored | extension/math/include/common/extension/math/filter/KalmanFilter.hpp:89-103 | such a call returns A x whatever was measured and leaves A P transpose(A) + Q as covariance |
| KalmanPsd.JosephForm | extension/math/include/common/extension/math/filter/KalmanFilter.hpp:96-100 | where `inverse` inverts S the new covariance is, as a quadratic form, (I - KH) P transpose(I - KH) + K R transpose(K) |
| KalmanPsd.RunOnceKeepsPsd | extension/math/include/common/extension/math/filter/KalmanFilter.hpp:89-102 | a call that does not throw keeps P positive semidefinite, unless S has determinant 1 and is not inverted; with one measured quantity too |
| KalmanPsd.RunsKeepPsd | extension/math/include/common/extension/math/filter/KalmanFilter.hpp:87-104 | the same over every sequence of such calls |
| KalmanPsd.UnitDeterminantBreaksPsd | extension/math/include/common/extension/math/matrix.hpp:428-433 | a filter with P = diag(2, 1/2) whose next covariance is diag(-2, 3/8), because S has determinant 1 |
| EventFrame.ParseEncoded | common/include/common/communication/EventFrame.hpp:58-86 | parse(make(f)) = f |
| EventFrame.EncodedParse | common/include/common/communication/EventFrame.hpp:58-86 | make(parse(raw)) = raw for every raw message of at least three bytes |
| EventFrame.Make | common/include/common/communication/EventFrame.hpp:76-86 | the appends build the frame's encoding, three bytes longer than its payload |
| Framing.Send | common/src/asio/AsyncTcp.cpp:114-121 | the buffer written is the 32-bit size followed by the data |
| Framing.HeaderRoundTrip | common/src/asio/AsyncTcp.cpp:92-117 | the size read back is the size written, below 2^32 |
| Framing.HeaderOfSize | common/src/asio/AsyncTcp.cpp:92-117 | every four bytes are the header of the size they are read as |
| Framing.MessagesOfWire | common/src/asio/AsyncTcp.cpp:70-121 | the stream of any list of short messages parses to exactly that list with nothing left |
| Framing.TruncatedStream | common/src/asio/AsyncTcp.cpp:70-112 | a stream cut anywhere yields a prefix of the messages |
| Framing.MessageSurvivesIffShort | common/src/asio/AsyncTcp.cpp:114-121 | a message is received as sent if and only if it is shorter than 2^32 bytes |
| Framing.MessagesAppend | common/src/asio/AsyncTcp.cpp:70-112 | receiving two pieces one after the other is receiving their concatenation |
| Framing.Receiver.OnByte | common/src/asio/AsyncTcp.cpp:70-112 | the header-then-payload states deliver exactly the whole messages of what has arrived |
| Framing.Receiver.OnChunk | common/src/asio/AsyncTcp.cpp:70-112 | the same for every chunking |
| Framing.DeliverAll | common/src/asio/AsyncTcp.cpp:70-134 | any chunking of the sent stream delivers the messages sent, of a truncated stream a prefix |
| Framing.FramesSurvive | common/include/common/communication/EventFrame.hpp:58-86 | frames encoded, framed, cut anywhere, received and parsed are a prefix of the frames sent, all of them when nothing is cut |
| TopicRegistry.TopicRegistry.Regist | common/src/asio/AsyncEventBroker.cpp:72-76 | appends the session to its topic's list and touches no other |
| TopicRegistry.TopicRegistry.Unregist | common/src/asio/AsyncEventBroker.cpp:78-96 | the erase-while-iterating loop terminates and removes the session everywhere, in whatever order the table is walked |
| TopicRegistry.TopicRegistry.Route | common/src/asio/AsyncEventBroker.cpp:98-112 | sends the DATA frame along the topic's list, skipping expired sessions |
| TopicRegistry.RouteReachesEachEntry | common/src/asio/AsyncEventBroker.cpp:98-112 | a live session gets the frame once per entry, an expired one never |
| TopicRegistry.NeverEmptyLists | common/src/asio/AsyncEventBroker.cpp:72-96 | over any sequence of regist and unregist no topic maps to an empty list |
| TopicRegistry.UnregisterRemovesOnly | common/src/asio/AsyncEventBroker.cpp:78-96 | after unregist the session is under no topic |
| TopicRegistry.WithoutKeepsSublist | common/src/asio/AsyncEventBroker.cpp:84-91 | every other session's entries keep their order and multiplicity |
| TopicRegistry.TableIsHistory | common/src/asio/AsyncEventBroker.cpp:72-96 | the table always lists the registrations not undone since, in registration order |
| Broker.AckedStaysRegistered | common/src/asio/AsyncEventBroker.cpp:130-149 | once ACK for a topic was sent, the session is in the registry under it in every later state until its UNREGIST arrives or its receive fails |
| Broker.AckedGetsEveryRoute | common/src/asio/AsyncEventBroker.cpp:51-112 | every route on that topic begun in between sends it the published message, byte for byte |
| Broker.BasicStep | common/src/asio/AsyncEventBroker.cpp:33-112 | every step keeps: registered sessions exist, routes in progress have served the targets they passed, a frame sent is the DATA message it came from or an ACK |
| Broker.RouteKeepsTargets | common/src/asio/AsyncEventBroker.cpp:98-112 | while a route holds the shared lock, table and message stay what they are |
| Broker.RoutedIsWork | common/src/asio/AsyncEventBroker.cpp:98-104 | re-encoding a DATA message for routing gives the received bytes back |
| BrokerDelivery.SubscriberHearsBlock | common/src/asio/AsyncEventBroker.cpp:51-112 | in every run, what a client that registers once received of any publisher's messages on the topic is a contiguous block of them, in order; each DATA frame it received is, byte for byte, a message sent on the topic |
| BrokerDelivery.FollowsStep | common/src/asio/AsyncEventBroker.cpp:51-112 | while registered, that block always reaches up to the last message offered, for every step |
| BrokerDelivery.HeardStep | common/src/asio/AsyncEventBroker.cpp:98-112 | only a step of the publisher's own route adds one of its messages, the one at work |
| Transport.PublishedReachesHandler | common/src/asio/AsyncEventTransport.cpp:66-121 | end to end, over all runs of broker and clients and all histories of both transports: what the subscriber's handler was given of a publisher is a contiguous block of what that application published over its connection |
| ByteBroker.PublishedReachesHandlerByBytes | common/src/asio/AsyncTcp.cpp:70-134 | the same over byte streams that arrive cut anywhere, each end handling the whole messages that have arrived |
| ByteBroker.ByteRunProjects | common/src/asio/AsyncTcp.cpp:70-134 | every run of broker and clients over byte streams is a run over whole messages that ends in the same state |
| ByteBroker.ByteStepProjects | common/src/asio/AsyncTcp.cpp:92-103 | the message parsed from the arrived bytes is the one that was sent at that place |
| ByteBroker.GotFromBytes | common/src/asio/AsyncTcp.cpp:70-112 | what a client has handled are the first whole messages in the bytes that arrived |
| Transport.HandlerHearsBlock | common/src/asio/AsyncEventTransport.cpp:99-117 | in every run the handler, which dispatches on the frame type, is given exactly the payloads of the DATA frames received; those of one publisher are a contiguous block of the payloads it sent on the topic |
| Transport.SentIsPublished | common/src/asio/AsyncEventTransport.cpp:29-100 | after any calls and callbacks in any order a connection carries one registration exactly when it is a connected subscription, and the payloads sent are those published since it stood |
| Transport.HandlersGetArrived | common/src/asio/AsyncEventTransport.cpp:99-117 | after any calls and callbacks the handlers were given exactly what arrived on the subscription, in order |
| Transport.HandledIsPublished | common/src/asio/AsyncEventTransport.cpp:99-117 | the handler's payloads of a publisher's messages are those at the positions heard |
| Transport.TcpTransport.StartConnect | common/src/asio/AsyncEventTransport.cpp:31-46 | moves the transport by the event `Connect` of the client whose histories the lemmas above are about |
| Transport.TcpTransport.StartSubscribe | common/src/asio/AsyncEventTransport.cpp:84-95 | the same for `Subscribe` |
| Transport.TcpTransport.OnConnected | common/src/asio/AsyncEventTransport.cpp:98-100 | the same for the connect callback |
| Transport.TcpTransport.OnPublish | common/src/asio/AsyncEventTransport.cpp:66-82 | the same for `Publish` |
| Transport.TcpTransport.OnReceive | common/src/asio/AsyncEventTransport.cpp:101-117 | the same for the receive callback |
| Transport.TcpTransport.OnDisconnect | common/src/asio/AsyncEventTransport.cpp:53-64 | the same for `Disconnect` |
| Readline.ReadlineByByte | common/src/communication/serial/Uart.cpp:320-349 | stops exactly at the end of the first terminator, or at the end of input, and returns the line specified for the bytes consumed |
| Readline.ReadlineByChunk | common/src/communication/serial/Uart.cpp:350-383 | the same for every cut into reads of up to 255 bytes |
| Readline.TakeKeeps | common/src/communication/serial/Uart.cpp:330-347 | one byte through either loop body keeps line and match state what the bytes so far specify, and ends exactly at a terminator |
| Readline.BothVersionsAgree | common/src/communication/serial/Uart.cpp:318-386 | both versions return the same line and stop at the same byte |
| Readline.PlainLine | common/src/communication/serial/Uart.cpp:329-347 | for "\0" and "\n" the line is the consumed prefix |
| Readline.LineIsConsumedIff | common/src/communication/serial/Uart.cpp:336-347 | the line is the consumed prefix if and only if the terminator is not "\r\n" or no '\r' is followed by a byte other than '\r' and '\n' |
| Readline.LoneReturnIsDoubled | common/src/communication/serial/Uart.cpp:336-347 | "\rA" comes back as "\r\rA" |
| Readline.LineLength | common/src/communication/serial/Uart.cpp:336-347 | for "\r\n" the line is longer by one byte per run of '\r' that another byte than '\n' ends |
| Readline.StopUnique | common/src/communication/serial/Uart.cpp:318-386 | the stopping place is determined by the input |
| ActiveRunnable.NeverIndexesEmpty | common/include/common/threading/Runnable.hpp:250-258 | without spurious wakeups the worker never indexes an empty vector, and a worker waiting with no wake-up pending means no tasks |
| ActiveRunnable.WorkFollowsNotifyOrder | common/include/common/threading/Runnable.hpp:250-301 | the items worked on are always a prefix of the notify order |
| ActiveRunnable.PromisesSetOnce | common/include/common/threading/Runnable.hpp:277-282 | a promise is set only while unset, with the result for its own data |
| ActiveRunnable.SpuriousWakeFatalIff | common/include/common/threading/Runnable.hpp:250-257 | in every run, after a spurious wakeup some continuation without another one indexes an empty vector if and only if it came while running and without a task |
| ActiveRunnable.SpuriousWakeIndexesEmpty | common/include/common/threading/Runnable.hpp:253-257 | a run that reaches it |
| ActiveRunnable.StopMissesTheWorkerIff | common/include/common/threading/Runnable.hpp:250-254 | in every run, after stop's notify the worker can still come to wait if and only if it had seen `_running` set, did not hold the mutex yet and there was no task |
| ActiveRunnable.StaysPastWait | common/include/common/threading/Runnable.hpp:250-254 | otherwise it never waits again, whatever happens |
| ActiveRunnable.MissedWorkerStays | common/include/common/threading/Runnable.hpp:250-254 | a missed worker does not exit until a notify, another stop or a spurious wakeup comes |
| ActiveRunnable.StopCanMissTheWorker | common/include/common/threading/Runnable.hpp:250-254 | an instance: a run without spurious wakeups after which a stopped worker still waits |

## Left out

- DequeMachine: weak memory orders and data races on a non-atomic `T`; each atomic access is one sequentially consistent step.
- DequeProof.EveryRunRefines: runs keep to what callers must respect, namely no pop before the first push and fewer than 2^64 pushes; array capacities are not wrapped.
- LockFreeWorkQueue.LockFreeWorkQueue.constructor: initial sizes above 2^63 round up to 0 and leave an array of no cells, which every access would divide by.
- LockFreeWorkQueue.LockFreeWorkQueue.Push: the objects run one operation at a time; interleavings are the subject of DequeMachine.
- `empty()`, `size()` and the counters' getters of the deque: hints only.
- WorkQueue.WorkQueue.Pop: the lock and the wait before it, and all interleaving, is in Executor; futures and packaged tasks are not modelled beyond each task's single run.
- Executor: one stopping thread; that `stop` returns is not claimed, and ExecutorStop says when it need not.
- MatrixCode: matrices have at least one row and column; the branch compiled without size exceptions, the scalar-times-matrix product, matrix-by-matrix division and the four-wide array constructor are unfinished in the library.
- MatrixCode.Divide: a zero scalar, for which floating point yields infinities; `inverse` never divides by 0.
- MatrixKalman.KalmanFilter.Store: assigning a buffer to itself.
- MatrixCode.Invert: non-square matrices; the loops would index past their buffers.
- Floating point: reals are exact; rounding and `std::pow` are not modelled.
- ScalarKalman.KalmanFilter.Run: P + Q + R = 0 divides by zero and is excluded.
- KalmanPsd.RunsKeepPsd: for an S of determinant 1 that `inverse` gets wrong nothing is claimed; UnitDeterminantBreaksPsd is one that breaks the covariance.
- MatrixKalman.KalmanFilter.Run: the arguments are other objects than the filter's own fields.
- EventFrame.Parse: messages shorter than three bytes stop the program by an assertion; clients send frames only.
- Transport.TcpTransport.OnReceive: the receive callback runs only on a connected subscription and for messages of at least three bytes; callbacks that arrive after a disconnect are not modelled.
- Framing.Send: hosts store integers with the least significant byte first; a write is taken to append its whole buffer, in initiation order.
- ByteBroker: messages of 2^32 bytes or more, which do not survive framing.
- Broker: a connection is open from accept until its receive fails; socket errors on send, races of connecting and disconnecting, and strict-mode aborts are not modelled. A route takes the shared lock alone for its own steps; other routes may run beside it.
- Broker.AckedStaysRegistered: that the ACK precedes the first DATA frame is not claimed, because a route may run between registration and ACK.
- Readline.ReadlineByChunk: the bytes that follow the terminator in a read are dropped by the library; nothing is claimed across calls.
- ActiveRunnable: the void variants of data and result differ only in what is passed; `run` is called once.
- Trigonometric code, message queues, device handles, timers, logging, signals, bindings and the small utilities (`SizedQueue`, `Subject`, `ResourceManager`, `Singleton`, `Factory`, `LowPassFilter`): input/output, foreign calls or easy members.

# libfemto lifecycle engine and point type, in Dafny

This project models two parts of libfemto:

- **`ThreadWorker<TConfig>`**, the engine that runs one background task for a caller. Callers drive it with `initialize`, `pause`, `resume`, `shutdown` and `configure`. The background thread runs the implementer's hooks: `on_initialize`, `main_loop`, `on_pause`, `on_resume`, `on_configuration` and `on_shutdown`.
- **`point2_t<T>`** at `T = int`: a 2D point with componentwise arithmetic, a dot product and equality.

## The worker model

The worker is one immutable record, `ThreadWorker.Worker<C>`. Its fields:

- `state`: the atomic `LifecycleState`. All six enumerators are kept, including `Initialized`, which nothing ever stores.
- `quit`: the quit flag.
- `slot`: the single-slot configuration mailbox.
- `started`: whether the `std::thread` handle is joinable.
- `phase`: where the background thread is inside its thread function.
- `trace`: the hooks called so far, in order.

Each controller call is one atomic transition that returns an `Outcome` (`Ok` or `Err(reason)`) and the new record. The error strings match the source.

Each step of the background thread is also one atomic transition (`ThreadWorker.LoopStep`). The steps are:

- `_initialize`;
- one pass of `while (!m_quit) _main_loop();`, which is the quit test followed by the dispatch on the state;
- the paused wait. If it times out, `_configure` and the do-while test follow in the same step.

`WorkerRuns.Run` interleaves an arbitrary sequence of both kinds of action. The invariant `WorkerRuns.Inv` holds of every record reachable from a fresh worker. The hook-ordering facts are proved from that invariant.

Modelling choices:

- The paused wait uses `wait_for` with a predicate. That call returns the predicate's value at the moment it returns. So the model breaks out of `_pause` exactly when `state == RESUME || quit` holds, and otherwise reports a timeout. The freedom in when the wait returns is the freedom of the interleaving.
- The wait returns holding `m_mutex`, and the mutex stays held through `_configure`, so `configure` cannot land between a timed-out wait and the drain. The lock is released at the end of the do-block body, before the do-while test at line 150. That test reads only the atomic state, which `configure` never writes. So a timed-out wait, the drain and the do-while test can form one step. The paused wait is the only place the loop touches the mutex.
- As written, `_configure` locks `m_mutex` a second time while `_pause` still holds it (see "## Findings"). `ThreadWorker` and everything built on it use the corrected drain (`ThreadWorker.AfterTimeout`), which runs `_configure` under the lock the wait already holds. `DrainAsWritten` models the code as written: there a timed-out wait leaves the thread stuck for good.
- `notify_one` in `resume` is not a separate event. The wait re-reads the state whenever the loop is scheduled.
- `shutdown` stores the quit flag. Then, if the handle is joinable, `ThreadWorker.Join` runs the loop to completion. No other controller call interleaves with the join. Afterwards the handle is no longer joinable.
- Two behaviours of the code that are easy to miss:
  - `initialize` does not wait for RUNNING: it returns before the thread stores it. A `pause` or `resume` issued before the loop's first step is therefore rejected (`WorkerScenarios.ImmediateLifecycle`).
  - `shutdown` does not make a never-initialised worker inert. A `shutdown` issued before any `initialize` leaves the state UNINITIALIZED. A later `initialize` still spawns a thread, which shuts down at once (`WorkerScenarios.ShutdownBeforeInitialize`).
- `m_quit` starts out false. It is declared without an initialiser, and `std::atomic<bool>` value-initialises since C++20.

## Model

| member | source | states |
|---|---|---|
| ThreadWorker.Initialize | include/thread_worker.hpp:21-28 | fails with "ThreadWorker already initialized" iff the state is not UNINITIALIZED, changing nothing; on success marks the thread started, spawning it at its first step unless one was already spawned, and leaves state, quit flag, mailbox and hooks unchanged |
| ThreadWorker.Pause | include/thread_worker.hpp:30-42 | PAUSED: succeeds and changes nothing; neither RUNNING nor PAUSED: fails and changes nothing; RUNNING: succeeds and only the state becomes PAUSED (quit flag and mailbox untouched) |
| ThreadWorker.Resume | include/thread_worker.hpp:44-58 | RUNNING: succeeds and changes nothing; neither RUNNING nor PAUSED: fails and changes nothing; PAUSED: succeeds and only the state becomes RESUME |
| ThreadWorker.Configure | include/thread_worker.hpp:68-75 | succeeds iff the mailbox is empty, and then stores exactly the offered value; when occupied fails with "Unprocessed configuration" and leaves the stored value in place (no overwrite, no queue) |
| ThreadWorker.Shutdown | include/thread_worker.hpp:60-66 | (corrected drain) always succeeds and raises the quit flag; keeps every hook already called; when a running thread is joined it returns only after the loop has stored SHUTDOWN and called `on_shutdown` last; without a thread it only raises the flag |
| ThreadWorker.LoopConfigure | include/thread_worker.hpp:159-167 | with the mailbox empty nothing happens; with a value pending, `on_configuration` is called with exactly that value, the mailbox is emptied, and nothing else changes |
| ThreadWorker.AfterTimeout | include/thread_worker.hpp:147-150 | after a timed-out wait (corrected drain): a pending configuration is always delivered and the mailbox left empty; state and quit flag are untouched; the wait is re-entered exactly when the state is still PAUSED, otherwise the loop resumes its `while` |
| ThreadWorker.LoopStep | include/thread_worker.hpp:104-173 | what each position does: the first step calls `on_initialize` then stores RUNNING; with quit up the loop calls `on_shutdown` and returns in SHUTDOWN; a RUNNING dispatch calls `main_loop`; a PAUSED dispatch calls `on_pause` and enters the wait; a RESUME dispatch calls `on_resume` then stores RUNNING; any other state does nothing; the wait breaks out exactly when RESUME or quit holds and otherwise drains the mailbox. Beyond that: the loop never touches the quit flag; it adds at most one hook per step and never removes one; the mailbox changes only after a timed-out wait, and then only by emptying; `main_loop` only on a dispatch that read RUNNING with quit down; `on_pause` only on a PAUSED dispatch, entering the wait; `on_resume` only on a RESUME dispatch, followed by RUNNING; `on_initialize` only on the first step; `on_shutdown` only once quit is seen, ending the thread in SHUTDOWN; `on_configuration(c)` only after a timed-out wait when `c` was pending, emptying the mailbox; RUNNING is stored only right after `on_initialize` or `on_resume`; once quit is up the thread makes progress towards returning |
| ThreadWorker.Join | include/thread_worker.hpp:104-112 | (corrected drain) with the quit flag up, a spawned thread always reaches the end of its thread function in SHUTDOWN with `on_shutdown` as its last hook; earlier hooks are kept; the mailbox is at most emptied |
| WorkerRuns.Apply | include/thread_worker.hpp:21-173 | no action lowers the quit flag or removes a called hook, and `shutdown` never fails |
| WorkerRuns.Run | include/thread_worker.hpp:60-66 | over any interleaving: one reply per action, the quit flag once up stays up, the hook history only grows, and every `shutdown` in the run succeeds |
| WorkerRuns.ReachableSatisfiesInv | include/thread_worker.hpp:104-173 | every reachable record keeps the invariant linking thread position, state and hook history (no hooks before the first step, state in RUNNING/PAUSED/RESUME while looping, PAUSED/RESUME while paused, SHUTDOWN once the thread has returned) |
| WorkerRuns.HookOrdering | include/thread_worker.hpp:104-112 | in every run `on_initialize` is the first hook and occurs once; `on_shutdown` occurs at most once, only as the last hook, and has occurred exactly when the thread function has returned, in SHUTDOWN |
| WorkerRuns.PauseEpisodeCallsOnPauseOnce | include/thread_worker.hpp:138-151 | while the thread is in a pause episode its history ends with one `on_pause` followed only by `on_configuration` calls |
| WorkerRuns.PauseEpisodeEnds | include/thread_worker.hpp:142-150 | a pause episode is left only when RESUME has been stored or the quit flag is up |
| WorkerRuns.ShutdownJoinsLoop | include/thread_worker.hpp:60-66 | (corrected drain) on any reachable worker whose thread was started, `shutdown` returns in SHUTDOWN with the thread returned, `on_shutdown` called once and last, and the handle no longer joinable |
| WorkerRuns.ShutdownIdempotent | include/thread_worker.hpp:60-66 | a second `shutdown` succeeds and changes nothing |
| WorkerRuns.FinishedIsInert | include/thread_worker.hpp:104-112 | once the thread has returned, no sequence of actions calls another hook or leaves SHUTDOWN |
| WorkerRuns.OnlyLoopStoresRunning | include/thread_worker.hpp:132-136 | no controller call moves the state to RUNNING; only the loop's `_initialize` and `_resume` do |
| WorkerRuns.MailboxChangesOnlyByOfferOrDrain | include/thread_worker.hpp:159-167 | any action that changes the mailbox either fills an empty slot with the value `configure` offered, or empties an occupied slot |
| WorkerScenarios.OfferThenDrain | include/thread_worker.hpp:159-167 | an offer to an empty mailbox followed by a drain calls `on_configuration` with exactly that value and leaves the mailbox empty, so the next offer succeeds |
| WorkerScenarios.SecondOfferRejected | include/thread_worker.hpp:68-75 | a second offer before the first is consumed fails and the first value stays |
| WorkerScenarios.RunningDispatchKeepsMailbox | include/thread_worker.hpp:114-130 | a dispatch that reads RUNNING calls `main_loop` and leaves the mailbox as it was |
| WorkerScenarios.InitializeThenObserve | include/thread_worker.hpp:132-136 | after `initialize` and the loop's first step the state is RUNNING and a second `initialize` fails |
| WorkerScenarios.PauseBeforeInitialize | include/thread_worker.hpp:30-42 | `pause` on a fresh worker fails with "Pause called invalid state" |
| WorkerScenarios.ImmediateLifecycle | include/thread_worker.hpp:21-66 | `initialize; pause; resume; shutdown` with no loop step in between: pause and resume are rejected and the hooks are exactly `on_initialize`, `on_shutdown` |
| WorkerScenarios.ShutdownBeforeInitialize | include/thread_worker.hpp:21-66 | after `shutdown` on a fresh worker, `initialize` still succeeds and its thread calls only `on_initialize` and `on_shutdown` |
| WorkerScenarios.PauseResumeLifecycle | include/thread_worker.hpp:30-58 | `initialize; pause; pause; resume; shutdown` with the loop scheduled in between and no wait timing out: all succeed and the hooks are `on_initialize`, `main_loop`, `on_pause` (once), `on_resume`, `on_shutdown` |
| WorkerScenarios.MainProgram | main.cpp:59-70 | the example program's schedule, whose paused wait times out before `resume`, followed by a second of running, under the corrected drain: every call succeeds and the hooks are `on_initialize`, `main_loop`, `on_pause`, `on_resume`, `main_loop`, `on_shutdown` |
| WorkerScenarios.ConfigureTwice | include/thread_worker.hpp:68-75 | (corrected drain) `configure(5); configure(6)` back to back while the loop waits paused: accepted, rejected; once the wait has timed out and applied 5, `configure(6)` is accepted |
| DrainAsWritten.StepAsWritten | include/thread_worker.hpp:142-161 | as written, a loop step gets stuck exactly when a paused wait times out; a stuck thread never moves again; every other step is the corrected one |
| DrainAsWritten.ShutdownAsWritten | include/thread_worker.hpp:60-66 | as written, `shutdown` always raises the quit flag; it never returns exactly when the thread is stuck in `_configure`; otherwise it is the corrected `shutdown` |
| DrainAsWritten.ConfigureAsWritten | include/thread_worker.hpp:68-75 | as written, `configure` never returns exactly when the thread is stuck holding the mutex; otherwise it is the corrected `configure` |
| DrainAsWritten.StuckThreadIsFrozen | include/thread_worker.hpp:144-161 | once the thread is stuck, no run calls another hook, lets the thread return or changes the mailbox, and no `configure` or `shutdown` ever returns |
| DrainAsWritten.TimedOutWaitNeverRecovers | include/thread_worker.hpp:144-161 | as written, after any timed-out paused wait no run reaches the end of the thread function or calls `on_configuration`, and no later `shutdown` returns |
| DrainAsWritten.MainProgramAsWritten | main.cpp:59-70 | the example program's schedule as written: `resume` is accepted but no hook follows `on_pause`, and `shutdown` never returns |
| Point2.AddAssign | include/point2.hpp:74-79 | `p += q` leaves `p` equal to the old `p + q`, so subtracting `q` gives the old `p` back; `q` is only read |
| Point2.ConstructorAndGetters | include/point2.hpp:22-47 | default construction gives (0, 0); the getters and `get_pair` return the stored components |
| Point2.AddSubInverse | include/point2.hpp:50-59 | over unbounded integers `(p + q) - q == p` and `(p - q) + q == p` |
| Point2.AddCommutesWithIdentity | include/point2.hpp:50-53 | `+` is commutative and the default point is its identity |
| Point2.ScaleEitherSide | include/point2.hpp:115-119 | `s * p` equals `p * s`, both components multiplied by `s` |
| Point2.DotSymmetricAndLinear | include/point2.hpp:68-71 | the dot product is symmetric and `(p * s) · q == s * (p · q)` |
| Point2.EqualityIsIdentity | include/point2.hpp:82-91 | `==` holds exactly when both components agree, and `!=` is exactly its negation |
| Point2.TestVectors | tests/point_tests.cpp:22-83 | (1,2)+(3,4)=(4,6), (3,4)-(1,2)=(2,2), (1,2)*2=(2,4), (1,2)·(3,4)=11, 2*(1,2)=(2,4), equality and inequality as the tests expect |

The loop's building blocks `LoopInitialize`, `LoopIteration`, `EnterPause`, `LoopResume`, `LoopShutdown` and `PausedWait` are stated through the per-position clauses of `ThreadWorker.LoopStep`. The point operators are stated through the lemmas above:

- `Point2.New` and `GetPair`: `ConstructorAndGetters`;
- `Add` and `Sub`: `AddSubInverse`, `AddCommutesWithIdentity` and `AddAssign`;
- `Scale` and `ScaleLeft`: `ScaleEitherSide`;
- `Dot`: `DotSymmetricAndLinear`;
- `Equal` and `NotEqual`: `EqualityIsIdentity`;
- all of them: `TestVectors`.

## Findings

| source | as written | input that shows it | evidently intended | confidence | as-written member | corrected member |
|---|---|---|---|---|---|---|
| include/thread_worker.hpp:144-161 | `_pause` holds `m_mutex` through a `unique_lock` when its wait returns, then calls `_configure`, which locks the same non-recursive mutex again (undefined behaviour; a self-deadlock in practice). The thread stays blocked in `_configure`; `configure` then blocks on the mutex and `shutdown` blocks in `join`. | `initialize`, one loop pass, `pause`, and no `resume` for 100 ms, as in main.cpp:62-68 | `_configure` runs under the lock the wait already holds, delivers any pending configuration, and the loop goes on; `shutdown` then always returns | high; not executed | DrainAsWritten.TimedOutWaitNeverRecovers | ThreadWorker.AfterTimeout |

## Left out

- Real threads, the 100 ms timeout, spurious wake-ups and memory orders are not modelled. The mutex is modelled only through what it excludes. Each controller call and each loop step is one atomic transition, and a run is one interleaving of them.
- WorkerRuns.ShutdownJoinsLoop: proved for the corrected drain only. As written, `shutdown` never returns once a paused wait has timed out; `DrainAsWritten.TimedOutWaitNeverRecovers` proves that.
- ThreadWorker.Shutdown: states the corrected drain's behaviour. As written, the join never returns after a timed-out wait; `DrainAsWritten.ShutdownAsWritten` models that. The join is also modelled with no other controller call running concurrently, so races between `shutdown` and another caller's `pause` or `resume` are not modelled.
- ThreadWorker.Join: states the corrected drain's behaviour. As written, a thread whose wait has timed out never returns; `DrainAsWritten.StuckThreadIsFrozen` models that.
- ThreadWorker.LoopStep: its timed-out wait is the corrected drain. `DrainAsWritten.StepAsWritten` is the step as written.
- The non-atomic check-then-store inside `pause` and `resume` is not modelled.
- The re-store of PAUSED at the start of `_pause` is not split from `on_pause`, so a `resume` landing between the two cannot be lost in the model.
- ThreadWorker.Initialize: when a thread was already spawned but has not yet stored RUNNING, the source reassigns a joinable `std::thread`, which terminates the process. The model returns `Ok` and keeps the single thread.
- The destructor's join is not modelled.
- Point2: the model uses unbounded integers. It does not model `int` overflow, which is undefined behaviour in the source and is exercised only by the overflow edge test.
- `magnitude` is not modelled, because it uses `std::sqrt`.
- The `float` and `double` instantiations are not modelled.
- The stream operators `<<` and `>>` are not modelled, because they are I/O.
- The affinity and priority helpers in include/utils.hpp are not modelled, because they are operating-system calls.
- include/thread_process.hpp is not part of this model: it only forwards to those helpers and does not compile as written.
- The interfaces `IProcess` and `IConfigurable` are not modelled beyond the `Outcome` type. `get_configuration` is a pure virtual getter with no behaviour to model.
- The test worker's `configure` override, which bypasses the mailbox, is not modelled. It is test scaffolding.

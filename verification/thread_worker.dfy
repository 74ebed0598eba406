/** The lifecycle engine of a single background worker, as a sequential state
    machine. A `Worker` is the record shared between the controlling caller and
    the background thread; every controller call and every step of the
    background loop is one atomic transition of that record. */
module ThreadWorker {
  import opened Lifecycle

  /** The hooks a concrete worker supplies, recorded in the order the loop calls them. */
  datatype Hook<C> =
    | OnInitialize
    | MainLoop
    | OnPause
    | OnResume
    | OnShutdown
    | OnConfiguration(config: C)

  /** Where the background thread currently is. */
  datatype Phase =
    | Unspawned   // no thread has been spawned yet
    | Starting    // spawned; `_initialize` has not run yet
    | Looping     // at the test of `while (!m_quit)`
    | Waiting     // inside `_pause`, about to wait on the condition variable
    | Finished    // the thread function has returned

  /** The shared record: the atomic state, the quit flag, the single-slot
      configuration mailbox, whether the thread handle is joinable, where the
      thread is, and every hook called so far. */
  datatype Worker<C> = Worker(
    state: LifecycleState,
    quit: bool,
    slot: Option<C>,
    started: bool,
    phase: Phase,
    trace: seq<Hook<C>>)

  /** What a controller call returns to its caller, with the record it leaves behind. */
  datatype Reply<C> = Reply(outcome: Outcome, worker: Worker<C>)

  const AlreadyInitialized: string := "ThreadWorker already initialized"
  const PauseInvalidState: string := "Pause called invalid state"
  const ResumeInvalidState: string := "Resume called invalid state"
  const UnprocessedConfiguration: string := "Unprocessed configuration"

  /** A newly constructed worker. */
  function Fresh<C>(): Worker<C>
  {
    Worker(Uninitialized, false, None, false, Unspawned, [])
  }

  // ---------------------------------------------------------------------------
  // Controller side

  /** `initialize()`: fails unless the state is still UNINITIALIZED; otherwise
      spawns the thread and returns at once, without touching the state. */
  function Initialize<C>(w: Worker<C>): (r: Reply<C>)
    ensures r.outcome.Err? <==> w.state != Uninitialized
    ensures r.outcome.Err? ==> r.worker == w && r.outcome.reason == AlreadyInitialized
    ensures r.outcome.Ok? ==>
              && r.worker.started
              && r.worker.phase == (if w.started then w.phase else Starting)
              && r.worker.state == w.state
              && r.worker.quit == w.quit
              && r.worker.slot == w.slot
              && r.worker.trace == w.trace
  {
    if w.state != Uninitialized then Reply(Err(AlreadyInitialized), w)
    else if w.started then Reply(Ok, w)
    else Reply(Ok, w.(started := true, phase := Starting))
  }

  /** `pause()`: a no-op when already PAUSED, an error unless RUNNING,
      otherwise requests PAUSED. */
  function Pause<C>(w: Worker<C>): (r: Reply<C>)
    ensures w.state == Paused ==> r == Reply(Ok, w)
    ensures w.state !in {Running, Paused} ==> r == Reply(Err(PauseInvalidState), w)
    ensures w.state == Running ==> r == Reply(Ok, w.(state := Paused))
  {
    if w.state == Paused then Reply(Ok, w)
    else if w.state != Running then Reply(Err(PauseInvalidState), w)
    else Reply(Ok, w.(state := Paused))
  }

  /** `resume()`: a no-op when already RUNNING, an error unless PAUSED,
      otherwise requests RESUME. The notification that wakes the paused wait
      is implicit: the wait re-reads the state whenever the loop is scheduled. */
  function Resume<C>(w: Worker<C>): (r: Reply<C>)
    ensures w.state == Running ==> r == Reply(Ok, w)
    ensures w.state !in {Running, Paused} ==> r == Reply(Err(ResumeInvalidState), w)
    ensures w.state == Paused ==> r == Reply(Ok, w.(state := LifecycleState.Resume))
  {
    if w.state == Running then Reply(Ok, w)
    else if w.state != Paused then Reply(Err(ResumeInvalidState), w)
    else Reply(Ok, w.(state := LifecycleState.Resume))
  }

  /** `configure(c)`: stores `c` in the mailbox only when it is empty; an
      occupied mailbox is neither overwritten nor queued behind. */
  function Configure<C>(w: Worker<C>, c: C): (r: Reply<C>)
    ensures r.outcome.Ok? <==> w.slot.None?
    ensures r.outcome.Ok? ==> r.worker == w.(slot := Some(c))
    ensures r.outcome.Err? ==> r == Reply(Err(UnprocessedConfiguration), w)
  {
    if w.slot.Some? then Reply(Err(UnprocessedConfiguration), w)
    else Reply(Ok, w.(slot := Some(c)))
  }

  /** `shutdown()`: raises the quit flag and, when the thread handle is
      joinable, blocks until the loop has run to completion. Never fails. */
  function Shutdown<C>(w: Worker<C>): (r: Reply<C>)
    ensures r.outcome == Ok
    ensures r.worker.quit && !r.worker.started
    ensures w.trace <= r.worker.trace
    ensures w.started && w.phase !in {Unspawned, Finished} ==>
              && r.worker.phase == Finished
              && r.worker.state == LifecycleState.Shutdown
              && |r.worker.trace| > 0
              && r.worker.trace[|r.worker.trace| - 1] == OnShutdown
    ensures !w.started ==> r.worker == w.(quit := true)
  {
    var raised := w.(quit := true);
    if w.started then Reply(Ok, Join(raised).(started := false))
    else Reply(Ok, raised)
  }

  // ---------------------------------------------------------------------------
  // Loop side

  /** `_initialize`: `on_initialize` first, then the state becomes RUNNING. */
  function LoopInitialize<C>(w: Worker<C>): Worker<C>
  {
    w.(trace := w.trace + [OnInitialize], state := Running, phase := Looping)
  }

  /** The part of `_pause` before its wait: `on_pause`, then PAUSED is stored again. */
  function EnterPause<C>(w: Worker<C>): Worker<C>
  {
    w.(trace := w.trace + [OnPause], state := Paused, phase := Waiting)
  }

  /** `_resume`: `on_resume`, then the state becomes RUNNING. */
  function LoopResume<C>(w: Worker<C>): Worker<C>
  {
    w.(trace := w.trace + [OnResume], state := Running)
  }

  /** `_configure`: hands a pending configuration to `on_configuration` and empties the mailbox. */
  function LoopConfigure<C>(w: Worker<C>): (r: Worker<C>)
    // an empty mailbox: nothing happens
    ensures w.slot.None? ==> r == w
    // a pending value: it is delivered exactly once, and only the mailbox and the history change
    ensures w.slot.Some? ==>
              && r.slot.None?
              && r.trace == w.trace + [OnConfiguration(w.slot.value)]
              && r.(trace := w.trace, slot := w.slot) == w
  {
    match w.slot
    case None => w
    case Some(c) => w.(trace := w.trace + [OnConfiguration(c)], slot := None)
  }

  /** `_shutdown`: `on_shutdown`, then the state becomes SHUTDOWN; the thread function returns. */
  function LoopShutdown<C>(w: Worker<C>): Worker<C>
  {
    w.(trace := w.trace + [OnShutdown], state := LifecycleState.Shutdown, phase := Finished)
  }

  /** One pass of `while (!m_quit) _main_loop();`: the quit test, then the
      `_main_loop` dispatch on the current state. */
  function LoopIteration<C>(w: Worker<C>): Worker<C>
  {
    if w.quit then LoopShutdown(w)
    else
      match w.state
      case Paused => EnterPause(w)
      case Resume => LoopResume(w)
      case Running => w.(trace := w.trace + [MainLoop])
      case _ => w
  }

  /** The predicate of the paused wait. */
  predicate WakeCondition<C>(w: Worker<C>)
  {
    w.state == LifecycleState.Resume || w.quit
  }

  /** The paused wait. A wait with a predicate reports the predicate's value
      when it returns, so it breaks out of `_pause` exactly when the predicate
      holds and reports a timeout otherwise. The wait returns holding the
      mutex, which stays held until `_configure` is done; a timed-out wait and
      the drain after it are therefore one step no `configure` can enter. */
  function PausedWait<C>(w: Worker<C>): Worker<C>
  {
    if WakeCondition(w) then w.(phase := Looping) else AfterTimeout(w)
  }

  /** After a timed-out wait: `_configure`, then the do-while test on PAUSED.
      `_configure` runs under the mutex the wait already holds; as written the
      source locks that mutex a second time there (see `DrainAsWritten`). */
  function AfterTimeout<C>(w: Worker<C>): (r: Worker<C>)
    // a pending configuration is always delivered, and the mailbox is left empty
    ensures r.slot.None?
    ensures w.slot.Some? ==> r.trace == w.trace + [OnConfiguration(w.slot.value)]
    ensures w.slot.None? ==> r.trace == w.trace
    // the controller's view is untouched
    ensures r.state == w.state && r.quit == w.quit && r.started == w.started
    // the wait is entered again exactly while the state is still PAUSED
    ensures r.phase == Waiting <==> w.state == Paused
    ensures r.phase in {Waiting, Looping}
  {
    var v := LoopConfigure(w);
    v.(phase := if v.state == Paused then Waiting else Looping)
  }

  /** The step from `before` to `after` called exactly the hook `h`. */
  ghost predicate Emits<C>(before: Worker<C>, after: Worker<C>, h: Hook<C>)
  {
    |after.trace| == |before.trace| + 1 && after.trace[|before.trace|] == h
  }

  /** How far a thread that has seen the quit flag still is from returning. */
  function Rank(p: Phase): nat
  {
    match p
    case Unspawned => 0
    case Finished => 0
    case Looping => 1
    case Starting => 2
    case Waiting => 2
  }

  /** One atomic step of the background thread, chosen by where it is. */
  function LoopStep<C>(w: Worker<C>): (r: Worker<C>)
    // what each position of the thread does
    ensures w.phase in {Unspawned, Finished} ==> r == w
    ensures w.phase == Starting ==>
              r == w.(trace := w.trace + [OnInitialize], state := Running, phase := Looping)
    ensures w.phase == Looping && w.quit ==>
              r == w.(trace := w.trace + [OnShutdown], state := LifecycleState.Shutdown, phase := Finished)
    ensures w.phase == Looping && !w.quit && w.state == Running ==> r == w.(trace := w.trace + [MainLoop])
    ensures w.phase == Looping && !w.quit && w.state == Paused ==>
              r == w.(trace := w.trace + [OnPause], phase := Waiting)
    ensures w.phase == Looping && !w.quit && w.state == LifecycleState.Resume ==>
              r == w.(trace := w.trace + [OnResume], state := Running)
    ensures w.phase == Looping && !w.quit && w.state !in {Running, Paused, LifecycleState.Resume} ==> r == w
    ensures w.phase == Waiting && WakeCondition(w) ==> r == w.(phase := Looping)
    ensures w.phase == Waiting && !WakeCondition(w) ==> r == AfterTimeout(w)
    // the loop never writes the quit flag or the thread handle
    ensures r.quit == w.quit && r.started == w.started
    // the hook history only grows, by at most one hook per step
    ensures w.trace <= r.trace && |r.trace| <= |w.trace| + 1
    // the mailbox is drained only after a timed-out paused wait
    ensures w.phase != Waiting || WakeCondition(w) ==> r.slot == w.slot
    ensures r.slot == w.slot || (w.slot.Some? && r.slot.None?)
    ensures Emits(w, r, OnInitialize) ==> w.phase == Starting && r.state == Running
    ensures Emits(w, r, MainLoop) ==>
              w.phase == Looping && !w.quit && w.state == Running && r.state == Running
    ensures Emits(w, r, OnPause) ==>
              w.phase == Looping && !w.quit && w.state == Paused && r.phase == Waiting
    ensures Emits(w, r, OnResume) ==>
              w.phase == Looping && !w.quit && w.state == LifecycleState.Resume && r.state == Running
    ensures Emits(w, r, OnShutdown) ==>
              w.quit && r.phase == Finished && r.state == LifecycleState.Shutdown
    ensures |r.trace| > |w.trace| && r.trace[|w.trace|].OnConfiguration? ==>
              && w.phase == Waiting && !WakeCondition(w)
              && w.slot == Some(r.trace[|w.trace|].config) && r.slot == None
    // RUNNING is stored only right after `on_initialize` or `on_resume`
    ensures r.state == Running && w.state != Running ==>
              Emits(w, r, OnInitialize) || Emits(w, r, OnResume)
    // the pause episode is left only when the wait predicate held or the do-while test failed
    ensures w.phase == Waiting && r.phase != Waiting ==>
              r.phase == Looping && (WakeCondition(w) || w.state != Paused)
    // once the quit flag is up, the thread moves towards returning
    ensures w.quit && w.phase !in {Unspawned, Finished} ==> Rank(r.phase) < Rank(w.phase)
  {
    match w.phase
    case Unspawned => w
    case Starting => LoopInitialize(w)
    case Looping => LoopIteration(w)
    case Waiting => PausedWait(w)
    case Finished => w
  }

  /** The background thread, run from wherever it is until it returns, as
      `join` waits for it once the quit flag is up. */
  function Join<C>(w: Worker<C>): (r: Worker<C>)
    requires w.quit
    ensures r.quit && r.started == w.started
    ensures w.trace <= r.trace
    ensures r.slot == w.slot || (w.slot.Some? && r.slot.None?)
    ensures w.phase == Unspawned ==> r == w
    ensures w.phase != Unspawned ==> r.phase == Finished
    ensures w.phase !in {Unspawned, Finished} ==>
              && r.state == LifecycleState.Shutdown
              && |r.trace| > |w.trace|
              && r.trace[|r.trace| - 1] == OnShutdown
    decreases Rank(w.phase)
  {
    if w.phase == Unspawned || w.phase == Finished then w
    else Join(LoopStep(w))
  }
}

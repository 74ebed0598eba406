/** The configuration mailbox's exchange between controller and loop, and
    end-to-end runs of a worker with an `int` configuration. */
module WorkerScenarios {
  import opened Lifecycle
  import opened ThreadWorker
  import opened WorkerRuns

  /** Offering to an empty mailbox and then draining it after a timed-out wait
      delivers exactly the offered value to `on_configuration` and leaves the
      mailbox empty again, so the next offer succeeds. */
  lemma OfferThenDrain<C>(w: Worker<C>, c: C, d: C)
    requires w.slot.None?
    ensures var offered := Configure(w, c);
      && offered.outcome == Ok
      && LoopConfigure(offered.worker) == w.(trace := w.trace + [OnConfiguration(c)])
      && Configure(LoopConfigure(offered.worker), d).outcome == Ok
  {
  }

  /** A second offer before the first is consumed fails and keeps the first value. */
  lemma SecondOfferRejected<C>(w: Worker<C>, c: C, d: C)
    requires w.slot.None?
    ensures var first := Configure(w, c).worker;
      && first.slot == Some(c)
      && Configure(first, d) == Reply(Err(UnprocessedConfiguration), first)
  {
  }

  /** A dispatch that reads RUNNING calls `main_loop` and never touches the mailbox. */
  lemma RunningDispatchKeepsMailbox<C>(w: Worker<C>)
    requires w.phase == Looping && !w.quit && w.state == Running
    ensures LoopStep(w).slot == w.slot
    ensures LoopStep(w).trace == w.trace + [MainLoop]
  {
  }

  /** Once the loop has taken its first step, the state is RUNNING and a
      second `initialize` fails. */
  lemma InitializeThenObserve<C>()
    ensures var t := Run(Fresh<C>(), [DoInitialize, LoopTick, DoInitialize]);
      && t.outcomes == [Ok, Ok, Err(AlreadyInitialized)]
      && t.worker.state == Running
      && t.worker.trace == [OnInitialize]
  {
  }

  /** `pause` before `initialize` is rejected. */
  lemma PauseBeforeInitialize<C>()
    ensures Run(Fresh<C>(), [DoPause]).outcomes == [Err(PauseInvalidState)]
  {
  }

  /** `initialize; pause; resume; shutdown` with no loop step in between: the
      state is still UNINITIALIZED when `pause` and `resume` arrive, so both are
      rejected, and the only hooks are `on_initialize` and `on_shutdown`. */
  lemma ImmediateLifecycle<C>()
    ensures var t := Run(Fresh<C>(), [DoInitialize, DoPause, DoResume, DoShutdown]);
      && t.outcomes == [Ok, Err(PauseInvalidState), Err(ResumeInvalidState), Ok]
      && t.worker.trace == [OnInitialize, OnShutdown]
      && t.worker.state == LifecycleState.Shutdown
  {
  }

  /** `shutdown` before `initialize` leaves the state UNINITIALIZED, so a later
      `initialize` still spawns a thread; that thread sees the quit flag at
      once and calls only `on_initialize` and `on_shutdown`. */
  lemma ShutdownBeforeInitialize<C>()
    ensures var t := Run(Fresh<C>(), [DoShutdown, DoInitialize, LoopTick, LoopTick]);
      && t.outcomes == [Ok, Ok, Ok, Ok]
      && t.worker.trace == [OnInitialize, OnShutdown]
      && t.worker.phase == Finished
  {
  }

  /** `initialize; pause; pause; resume; shutdown` with the loop scheduled in
      between and no paused wait timing out: `on_initialize`, `main_loop`,
      `on_pause` once although `pause` is called twice, `on_resume`, then
      `on_shutdown`. */
  lemma PauseResumeLifecycle<C>(acts: seq<Action<C>>)
    requires acts == [DoInitialize, LoopTick, LoopTick, DoPause, LoopTick, DoPause,
                      DoResume, LoopTick, LoopTick, DoShutdown]
    ensures var t := Run(Fresh<C>(), acts);
      && t.outcomes == [Ok, Ok, Ok, Ok, Ok, Ok, Ok, Ok, Ok, Ok]
      && t.worker.trace == [OnInitialize, MainLoop, OnPause, OnResume, OnShutdown]
      && t.worker.state == LifecycleState.Shutdown
  {
    var front, middle, back := acts[..3], acts[3..6], acts[6..];
    assert front == [DoInitialize, LoopTick, LoopTick];
    assert middle == [DoPause, LoopTick, DoPause];
    assert back == [DoResume, LoopTick, LoopTick, DoShutdown];
    StartAndWork<C>();
    PauseTwice<C>();
    ResumeAndShutdown<C>();
    RunConcat(RunningAfterMainLoop<C>(), middle, back);
    RunConcat(Fresh<C>(), front, middle + back);
    assert front + (middle + back) == acts;
  }

  /** The example program's schedule: `initialize`, one `main_loop`, `pause`,
      a paused wait that times out before `resume` arrives, `resume`, a second
      of running in which `main_loop` is called again, then `shutdown`. With the
      drain run under the mutex the wait holds, every call succeeds and the
      hooks are `on_initialize`, `main_loop`, `on_pause`, `on_resume`,
      `main_loop`, `on_shutdown`. */
  lemma MainProgram<C>(acts: seq<Action<C>>)
    requires acts == [DoInitialize, LoopTick, LoopTick, DoPause, LoopTick, LoopTick,
                      DoResume, LoopTick, LoopTick, LoopTick, DoShutdown]
    ensures var t := Run(Fresh<C>(), acts);
      && t.outcomes == [Ok, Ok, Ok, Ok, Ok, Ok, Ok, Ok, Ok, Ok, Ok]
      && t.worker.trace == [OnInitialize, MainLoop, OnPause, OnResume, MainLoop, OnShutdown]
      && t.worker.state == LifecycleState.Shutdown
  {
    var front, middle, back := acts[..3], acts[3..6], acts[6..];
    assert front == [DoInitialize, LoopTick, LoopTick];
    assert middle == [DoPause, LoopTick, LoopTick];
    assert back == [DoResume, LoopTick, LoopTick, LoopTick, DoShutdown];
    StartAndWork<C>();
    PauseThenTimeOut<C>();
    ResumeWorkAndShutdown<C>();
    RunConcat(RunningAfterMainLoop<C>(), middle, back);
    RunConcat(Fresh<C>(), front, middle + back);
    assert front + (middle + back) == acts;
  }

  /** The running worker after one call of `main_loop`. */
  function RunningAfterMainLoop<C>(): Worker<C>
  {
    Worker(Running, false, None, true, Looping, [OnInitialize, MainLoop])
  }

  /** The worker waiting in the pause episode that follows one `main_loop`. */
  function WaitingAfterMainLoop<C>(): Worker<C>
  {
    Worker(Paused, false, None, true, Waiting, [OnInitialize, MainLoop, OnPause])
  }

  lemma StartAndWork<C>()
    ensures Run(Fresh<C>(), [DoInitialize, LoopTick, LoopTick])
            == Trial([Ok, Ok, Ok], RunningAfterMainLoop<C>())
  {
  }

  lemma PauseTwice<C>()
    ensures Run(RunningAfterMainLoop<C>(), [DoPause, LoopTick, DoPause])
            == Trial([Ok, Ok, Ok], WaitingAfterMainLoop<C>())
  {
  }

  /** A wait that times out with nothing pending goes straight back to waiting. */
  lemma PauseThenTimeOut<C>()
    ensures Run(RunningAfterMainLoop<C>(), [DoPause, LoopTick, LoopTick])
            == Trial([Ok, Ok, Ok], WaitingAfterMainLoop<C>())
  {
  }

  lemma ResumeAndShutdown<C>()
    ensures var t := Run(WaitingAfterMainLoop<C>(), [DoResume, LoopTick, LoopTick, DoShutdown]);
      && t.outcomes == [Ok, Ok, Ok, Ok]
      && t.worker.trace == [OnInitialize, MainLoop, OnPause, OnResume, OnShutdown]
      && t.worker.state == LifecycleState.Shutdown
  {
  }

  /** `resume`, a wake-up, the RESUME dispatch and one more `main_loop`, then `shutdown`. */
  lemma ResumeWorkAndShutdown<C>()
    ensures var t := Run(WaitingAfterMainLoop<C>(), [DoResume, LoopTick, LoopTick, LoopTick, DoShutdown]);
      && t.outcomes == [Ok, Ok, Ok, Ok, Ok]
      && t.worker.trace == [OnInitialize, MainLoop, OnPause, OnResume, MainLoop, OnShutdown]
      && t.worker.state == LifecycleState.Shutdown
  {
  }

  /** `configure(5); configure(6)` back to back while the loop waits paused:
      the first is accepted, the second rejected; once the wait has timed out
      and applied 5, `configure(6)` is accepted. */
  lemma ConfigureTwice(acts: seq<Action<int>>)
    requires acts == [DoInitialize, LoopTick, DoPause, LoopTick,
                      DoConfigure(5), DoConfigure(6), LoopTick, DoConfigure(6)]
    ensures var t := Run(Fresh<int>(), acts);
      && t.outcomes == [Ok, Ok, Ok, Ok, Ok, Err(UnprocessedConfiguration), Ok, Ok]
      && t.worker.trace == [OnInitialize, OnPause, OnConfiguration(5)]
      && t.worker.slot == Some(6)
  {
    var front, back := acts[..4], acts[4..];
    assert front == [DoInitialize, LoopTick, DoPause, LoopTick];
    assert back == [DoConfigure(5), DoConfigure(6), LoopTick, DoConfigure(6)];
    PauseBeforeMainLoop<int>();
    OfferTwiceThenDrain();
    RunConcat(Fresh<int>(), front, back);
    assert front + back == acts;
  }

  /** The worker waiting in a pause requested before its first `main_loop`. */
  function WaitingBeforeMainLoop<C>(): Worker<C>
  {
    Worker(Paused, false, None, true, Waiting, [OnInitialize, OnPause])
  }

  lemma PauseBeforeMainLoop<C>()
    ensures Run(Fresh<C>(), [DoInitialize, LoopTick, DoPause, LoopTick])
            == Trial([Ok, Ok, Ok, Ok], WaitingBeforeMainLoop<C>())
  {
  }

  lemma OfferTwiceThenDrain()
    ensures var t := Run(WaitingBeforeMainLoop<int>(), [DoConfigure(5), DoConfigure(6), LoopTick, DoConfigure(6)]);
      && t.outcomes == [Ok, Err(UnprocessedConfiguration), Ok, Ok]
      && t.worker.trace == [OnInitialize, OnPause, OnConfiguration(5)]
      && t.worker.slot == Some(6)
  {
  }
}

/** Interleavings of controller calls and loop steps, the invariant every
    reachable worker record keeps, and the hook-ordering facts that follow. */
module WorkerRuns {
  import opened Lifecycle
  import opened ThreadWorker

  /** One scheduling decision: a controller call, or one step of the background thread. */
  datatype Action<C> =
    | DoInitialize
    | DoPause
    | DoResume
    | DoShutdown
    | DoConfigure(config: C)
    | LoopTick

  /** The replies of a run, one per action, and the record it ends in. */
  datatype Trial<C> = Trial(outcomes: seq<Outcome>, worker: Worker<C>)

  /** Performs one action; a loop step answers `Ok` to nobody. */
  function Apply<C>(w: Worker<C>, a: Action<C>): (r: Reply<C>)
    ensures w.quit ==> r.worker.quit
    ensures w.trace <= r.worker.trace
    ensures a.DoShutdown? ==> r.outcome == Ok
  {
    match a
    case DoInitialize => Initialize(w)
    case DoPause => Pause(w)
    case DoResume => ThreadWorker.Resume(w)
    case DoShutdown => ThreadWorker.Shutdown(w)
    case DoConfigure(c) => Configure(w, c)
    case LoopTick => Reply(Ok, LoopStep(w))
  }

  /** Performs the actions in order. */
  function Run<C>(w: Worker<C>, acts: seq<Action<C>>): (t: Trial<C>)
    ensures |t.outcomes| == |acts|
    // the quit flag is never lowered
    ensures w.quit ==> t.worker.quit
    // hooks once called stay called
    ensures w.trace <= t.worker.trace
    // shutdown never fails
    ensures forall i :: 0 <= i < |acts| && acts[i].DoShutdown? ==> t.outcomes[i] == Ok
    decreases |acts|
  {
    if |acts| == 0 then Trial([], w)
    else
      var step := Apply(w, acts[0]);
      var rest := Run(step.worker, acts[1..]);
      assert forall i :: 1 <= i < |acts| ==> acts[i] == acts[1..][i - 1];
      Trial([step.outcome] + rest.outcomes, rest.worker)
  }

  /** Running two action sequences one after the other is running their concatenation. */
  lemma {:induction false} RunConcat<C>(w: Worker<C>, front: seq<Action<C>>, back: seq<Action<C>>)
    ensures var first := Run(w, front);
      var second := Run(first.worker, back);
      Run(w, front + back) == Trial(first.outcomes + second.outcomes, second.worker)
    decreases |front|
  {
    if |front| == 0 {
      assert front + back == back;
    } else {
      var step := Apply(w, front[0]);
      assert (front + back)[0] == front[0];
      assert (front + back)[1..] == front[1..] + back;
      RunConcat(step.worker, front[1..], back);
      var first' := Run(step.worker, front[1..]);
      var second := Run(first'.worker, back);
      assert Run(w, front).outcomes == [step.outcome] + first'.outcomes;
      assert Run(w, front + back).outcomes == [step.outcome] + (first'.outcomes + second.outcomes);
    }
  }

  // ---------------------------------------------------------------------------
  // Shapes of the hook history

  /** `on_initialize` was called first, and only once. */
  predicate InitializedOnceFirst<C>(t: seq<Hook<C>>)
  {
    |t| > 0 && t[0].OnInitialize? && forall i :: 0 < i < |t| ==> !t[i].OnInitialize?
  }

  /** `on_shutdown` was never called. */
  predicate NoShutdownHook<C>(t: seq<Hook<C>>)
  {
    forall i :: 0 <= i < |t| ==> !t[i].OnShutdown?
  }

  /** `on_shutdown` was called last, and only once. */
  predicate ShutdownOnceLast<C>(t: seq<Hook<C>>)
  {
    |t| > 0 && t[|t| - 1].OnShutdown? && forall i :: 0 <= i < |t| - 1 ==> !t[i].OnShutdown?
  }

  /** The history ends with `on_pause` followed only by configuration hooks:
      the current pause episode has called `on_pause` exactly once. */
  predicate PausedSince<C>(t: seq<Hook<C>>)
    decreases |t|
  {
    |t| > 0 && (t[|t| - 1].OnPause? || (t[|t| - 1].OnConfiguration? && PausedSince(t[..|t| - 1])))
  }

  /** What holds of every record reachable from a fresh worker. */
  predicate Inv<C>(w: Worker<C>)
  {
    match w.phase
    case Unspawned => w.state == Uninitialized && !w.started && w.trace == []
    case Starting => w.state == Uninitialized && w.started && w.trace == []
    case Looping =>
      && w.started
      && w.state in {Running, Paused, LifecycleState.Resume}
      && InitializedOnceFirst(w.trace)
      && NoShutdownHook(w.trace)
    case Waiting =>
      && w.started
      && w.state in {Paused, LifecycleState.Resume}
      && InitializedOnceFirst(w.trace)
      && NoShutdownHook(w.trace)
      && PausedSince(w.trace)
    case Finished =>
      && w.state == LifecycleState.Shutdown
      && w.quit
      && InitializedOnceFirst(w.trace)
      && ShutdownOnceLast(w.trace)
  }

  // ---------------------------------------------------------------------------
  // The invariant is inductive

  lemma FreshSatisfiesInv<C>()
    ensures Inv(Fresh<C>())
  {
  }

  lemma LoopStepPreservesInv<C>(w: Worker<C>)
    requires Inv(w)
    ensures Inv(LoopStep(w))
  {
  }

  lemma {:induction false} JoinPreservesInv<C>(w: Worker<C>)
    requires w.quit && Inv(w)
    ensures Inv(Join(w))
    decreases Rank(w.phase)
  {
    if w.phase != Unspawned && w.phase != Finished {
      LoopStepPreservesInv(w);
      JoinPreservesInv(LoopStep(w));
    }
  }

  lemma ApplyPreservesInv<C>(w: Worker<C>, a: Action<C>)
    requires Inv(w)
    ensures Inv(Apply(w, a).worker)
  {
    match a
    case DoShutdown =>
      if w.started {
        JoinPreservesInv(w.(quit := true));
      }
    case LoopTick => LoopStepPreservesInv(w);
    case _ =>
  }

  lemma {:induction false} RunPreservesInv<C>(w: Worker<C>, acts: seq<Action<C>>)
    requires Inv(w)
    ensures Inv(Run(w, acts).worker)
    decreases |acts|
  {
    if |acts| > 0 {
      ApplyPreservesInv(w, acts[0]);
      RunPreservesInv(Apply(w, acts[0]).worker, acts[1..]);
    }
  }

  /** Every record reachable from a fresh worker satisfies the invariant. */
  lemma ReachableSatisfiesInv<C>(acts: seq<Action<C>>)
    ensures Inv(Run(Fresh<C>(), acts).worker)
  {
    FreshSatisfiesInv<C>();
    RunPreservesInv(Fresh<C>(), acts);
  }

  // ---------------------------------------------------------------------------
  // Hook ordering

  /** In every run: `on_initialize` is the first hook and is called once;
      `on_shutdown` is called at most once, and only as the last hook, and it
      has been called exactly when the thread function has returned. */
  lemma HookOrdering<C>(acts: seq<Action<C>>)
    ensures var w := Run(Fresh<C>(), acts).worker;
      && (w.trace != [] ==> InitializedOnceFirst(w.trace))
      && (forall i :: 0 <= i < |w.trace| && w.trace[i].OnShutdown? ==> i == |w.trace| - 1)
      && (w.phase == Finished <==> exists i :: 0 <= i < |w.trace| && w.trace[i].OnShutdown?)
      && (w.phase == Finished ==> w.state == LifecycleState.Shutdown)
  {
    ReachableSatisfiesInv(acts);
  }

  /** While the thread is paused, the history ends with the one `on_pause` of
      the current episode followed only by configuration hooks. */
  lemma PauseEpisodeCallsOnPauseOnce<C>(acts: seq<Action<C>>)
    ensures var w := Run(Fresh<C>(), acts).worker;
      w.phase == Waiting ==> PausedSince(w.trace)
  {
    ReachableSatisfiesInv(acts);
  }

  /** A pause episode ends only once RESUME has been requested or the quit flag is up. */
  lemma PauseEpisodeEnds<C>(w: Worker<C>)
    requires Inv(w) && w.phase == Waiting
    ensures LoopStep(w).phase != Waiting ==>
              w.state == LifecycleState.Resume || w.quit
  {
  }

  /** `shutdown` on a worker whose thread was started returns only once the loop
      has called `on_shutdown` as its last hook and stored SHUTDOWN. This holds
      with the drain of a timed-out wait run under the mutex the wait holds;
      as written, a thread whose wait has timed out never returns
      (`DrainAsWritten.StuckThreadIsFrozen`). */
  lemma ShutdownJoinsLoop<C>(w: Worker<C>)
    requires Inv(w) && w.started
    ensures var r := ThreadWorker.Shutdown(w).worker;
      && r.phase == Finished
      && r.state == LifecycleState.Shutdown
      && ShutdownOnceLast(r.trace)
      && !r.started
  {
    JoinPreservesInv(w.(quit := true));
  }

  /** A second `shutdown` changes nothing. */
  lemma ShutdownIdempotent<C>(w: Worker<C>)
    ensures var once := ThreadWorker.Shutdown(w).worker;
      ThreadWorker.Shutdown(once) == Reply(Ok, once)
  {
  }

  /** Once the thread function has returned, no action calls another hook or
      leaves SHUTDOWN. */
  lemma {:induction false} FinishedIsInert<C>(w: Worker<C>, acts: seq<Action<C>>)
    requires Inv(w) && w.phase == Finished
    ensures Run(w, acts).worker.trace == w.trace
    ensures Run(w, acts).worker.state == LifecycleState.Shutdown
    ensures Run(w, acts).worker.phase == Finished
    decreases |acts|
  {
    if |acts| > 0 {
      var next := Apply(w, acts[0]).worker;
      assert next.trace == w.trace && next.phase == Finished;
      ApplyPreservesInv(w, acts[0]);
      FinishedIsInert(next, acts[1..]);
    }
  }

  /** No controller call stores RUNNING: it is stored only by the loop. */
  lemma OnlyLoopStoresRunning<C>(w: Worker<C>, a: Action<C>)
    requires Inv(w) && !a.LoopTick?
    ensures Apply(w, a).worker.state == Running ==> w.state == Running
  {
  }

  /** The mailbox changes only by a successful `configure` filling it or by a
      drain after a timed-out paused wait emptying it. */
  lemma MailboxChangesOnlyByOfferOrDrain<C>(w: Worker<C>, a: Action<C>)
    requires Inv(w)
    ensures var r := Apply(w, a);
      r.worker.slot != w.slot ==>
        || (a.DoConfigure? && w.slot.None? && r.worker.slot == Some(a.config))
        || (r.worker.slot.None? && w.slot.Some?)
  {
  }
}

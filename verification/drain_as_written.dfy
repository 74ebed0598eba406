/** The paused wait as the source writes it. `_pause` takes the mutex with a
    `unique_lock` for its wait, and the wait returns holding it; `_configure`,
    called while that lock is still in scope, locks the same non-recursive
    mutex again. Relocking a mutex the thread already owns is undefined
    behaviour and in practice a self-deadlock, so a paused wait that times out
    leaves the background thread blocked inside `_configure` for good, still
    holding the mutex. `configure` then blocks on the mutex and `shutdown`
    blocks in `join`.

    This module models that behaviour on top of the worker record; the rest of
    the model uses the corrected drain (`ThreadWorker.AfterTimeout`), which
    runs `_configure` under the lock the wait already holds. */
module DrainAsWritten {
  import opened Lifecycle
  import opened ThreadWorker
  import opened WorkerRuns

  /** The shared record; whether the background thread is blocked relocking the
      mutex in `_configure`; whether the controlling caller is blocked in a
      call that never returns. */
  datatype Snapshot<C> = Snapshot(worker: Worker<C>, stuck: bool, blocked: bool)

  /** A controller call's answer, `None` while the call has not returned, with
      the snapshot it leaves. */
  datatype Call<C> = Call(outcome: Option<Outcome>, after: Snapshot<C>)

  /** The replies of a run and the snapshot it ends in. */
  datatype Execution<C> = Execution(outcomes: seq<Option<Outcome>>, last: Snapshot<C>)

  /** A newly constructed worker with nobody blocked. */
  function Start<C>(): Snapshot<C>
  {
    Snapshot(Fresh(), false, false)
  }

  /** One step of the background thread as written: a paused wait that times
      out goes on to relock the mutex it holds, and a stuck thread never moves. */
  function StepAsWritten<C>(s: Snapshot<C>): (r: Snapshot<C>)
    ensures s.stuck ==> r == s
    // a wait that times out is the only way to get stuck
    ensures !s.stuck && r.stuck <==>
              !s.stuck && s.worker.phase == Waiting && !WakeCondition(s.worker)
    ensures r.stuck ==> r.worker == s.worker
    // every other step is the corrected step
    ensures !r.stuck ==> r.worker == LoopStep(s.worker)
    ensures r.blocked == s.blocked
  {
    if s.stuck then s
    else if s.worker.phase == Waiting && !WakeCondition(s.worker) then s.(stuck := true)
    else s.(worker := LoopStep(s.worker))
  }

  /** `shutdown()` as written: raises the quit flag, then joins. A stuck thread
      never returns, so neither does the join; otherwise the quit flag makes
      the wait's predicate true, no wait times out, and the join is the
      corrected one. */
  function ShutdownAsWritten<C>(s: Snapshot<C>): (r: Call<C>)
    requires !s.blocked
    ensures r.after.worker.quit
    ensures s.stuck <==> r.outcome.None?
    ensures s.stuck ==> r.after.blocked && r.after.stuck && r.after.worker.trace == s.worker.trace
    ensures !s.stuck ==> r == Call(Some(Ok), s.(worker := ThreadWorker.Shutdown(s.worker).worker))
  {
    var raised := s.worker.(quit := true);
    if s.stuck then Call(None, Snapshot(raised, true, true))
    else Call(Some(Ok), s.(worker := ThreadWorker.Shutdown(s.worker).worker))
  }

  /** `configure(c)` as written: it needs the mutex, which a stuck thread holds for good. */
  function ConfigureAsWritten<C>(s: Snapshot<C>, c: C): (r: Call<C>)
    requires !s.blocked
    ensures s.stuck <==> r.outcome.None?
    ensures s.stuck ==> r.after == s.(blocked := true)
    ensures !s.stuck ==> r == Call(Some(Configure(s.worker, c).outcome), s.(worker := Configure(s.worker, c).worker))
  {
    if s.stuck then Call(None, s.(blocked := true))
    else
      var reply := Configure(s.worker, c);
      Call(Some(reply.outcome), s.(worker := reply.worker))
  }

  /** Performs one action as written. A blocked caller issues nothing more;
      `initialize`, `pause` and `resume` take no mutex and behave as in the
      corrected model. */
  function ApplyAsWritten<C>(s: Snapshot<C>, a: Action<C>): (r: Call<C>)
    ensures s.blocked && !a.LoopTick? ==> r == Call(None, s)
    ensures s.blocked ==> r.after.blocked
    ensures s.stuck ==> r.after.stuck
  {
    if s.blocked && !a.LoopTick? then Call(None, s)
    else
      match a
      case LoopTick => Call(Some(Ok), StepAsWritten(s))
      case DoShutdown => ShutdownAsWritten(s)
      case DoConfigure(c) => ConfigureAsWritten(s, c)
      case _ =>
        var reply := Apply(s.worker, a);
        Call(Some(reply.outcome), s.(worker := reply.worker))
  }

  /** Performs the actions in order, as written. */
  function RunAsWritten<C>(s: Snapshot<C>, acts: seq<Action<C>>): (e: Execution<C>)
    ensures |e.outcomes| == |acts|
    ensures s.stuck ==> e.last.stuck
    decreases |acts|
  {
    if |acts| == 0 then Execution([], s)
    else
      var step := ApplyAsWritten(s, acts[0]);
      var rest := RunAsWritten(step.after, acts[1..]);
      Execution([step.outcome] + rest.outcomes, rest.last)
  }

  /** Running two action sequences one after the other is running their concatenation. */
  lemma {:induction false} RunAsWrittenConcat<C>(s: Snapshot<C>, front: seq<Action<C>>, back: seq<Action<C>>)
    ensures var first := RunAsWritten(s, front);
      var second := RunAsWritten(first.last, back);
      RunAsWritten(s, front + back) == Execution(first.outcomes + second.outcomes, second.last)
    decreases |front|
  {
    if |front| == 0 {
      assert front + back == back;
    } else {
      var step := ApplyAsWritten(s, front[0]);
      assert (front + back)[0] == front[0];
      assert (front + back)[1..] == front[1..] + back;
      RunAsWrittenConcat(step.after, front[1..], back);
      var first' := RunAsWritten(step.after, front[1..]);
      var second := RunAsWritten(first'.last, back);
      assert RunAsWritten(s, front).outcomes == [step.outcome] + first'.outcomes;
      assert RunAsWritten(s, front + back).outcomes == [step.outcome] + (first'.outcomes + second.outcomes);
    }
  }

  // ---------------------------------------------------------------------------
  // What the relock costs

  /** Once the thread is stuck, no sequence of actions calls another hook,
      lets the thread return, or moves the mailbox; every `configure` and every
      `shutdown` stays unanswered, and so does every call after the first of them. */
  lemma {:induction false} StuckThreadIsFrozen<C>(s: Snapshot<C>, acts: seq<Action<C>>)
    requires s.stuck && s.worker.started
    ensures var e := RunAsWritten(s, acts);
      && e.last.stuck
      && e.last.worker.trace == s.worker.trace
      && e.last.worker.phase == s.worker.phase
      && e.last.worker.slot == s.worker.slot
    ensures var e := RunAsWritten(s, acts);
      forall i :: 0 <= i < |acts| && (acts[i].DoShutdown? || acts[i].DoConfigure?) ==> e.outcomes[i].None?
    ensures s.blocked ==> forall i :: 0 <= i < |acts| && !acts[i].LoopTick? ==>
              RunAsWritten(s, acts).outcomes[i].None?
    decreases |acts|
  {
    if |acts| > 0 {
      var step := ApplyAsWritten(s, acts[0]);
      assert step.after.worker.trace == s.worker.trace;
      assert step.after.worker.phase == s.worker.phase;
      assert step.after.worker.slot == s.worker.slot;
      assert step.after.worker.started;
      assert (acts[0].DoShutdown? || acts[0].DoConfigure?) ==> step.outcome.None? && step.after.blocked;
      StuckThreadIsFrozen(step.after, acts[1..]);
      var e := RunAsWritten(s, acts);
      assert forall i :: 1 <= i < |acts| ==> acts[i] == acts[1..][i - 1] && e.outcomes[i] == RunAsWritten(step.after, acts[1..]).outcomes[i - 1];
    }
  }

  /** A paused wait that times out, on any reachable worker: afterwards no run
      lets the thread return, calls `on_configuration` or any other hook, or
      empties the mailbox, and no `shutdown` ever returns. */
  lemma TimedOutWaitNeverRecovers<C>(s: Snapshot<C>, acts: seq<Action<C>>)
    requires Inv(s.worker) && !s.stuck && s.worker.phase == Waiting && !WakeCondition(s.worker)
    ensures var e := RunAsWritten(StepAsWritten(s), acts);
      && e.last.worker.phase != Finished
      && e.last.worker.trace == s.worker.trace
      && e.last.worker.slot == s.worker.slot
      && forall i :: 0 <= i < |acts| && acts[i].DoShutdown? ==> e.outcomes[i].None?
  {
    StuckThreadIsFrozen(StepAsWritten(s), acts);
  }

  /** The example program's schedule as written: once the paused wait times
      out before `resume`, `resume` is still accepted but no hook follows
      `on_pause`, and `shutdown` never returns. */
  lemma MainProgramAsWritten<C>(acts: seq<Action<C>>)
    requires acts == [DoInitialize, LoopTick, LoopTick, DoPause, LoopTick, LoopTick,
                      DoResume, LoopTick, LoopTick, LoopTick, DoShutdown]
    ensures var e := RunAsWritten(Start<C>(), acts);
      && e.outcomes == [Some(Ok), Some(Ok), Some(Ok), Some(Ok), Some(Ok), Some(Ok),
                        Some(Ok), Some(Ok), Some(Ok), Some(Ok), None]
      && e.last.worker.trace == [OnInitialize, MainLoop, OnPause]
      && e.last.blocked
  {
    var front, back := acts[..6], acts[6..];
    assert front == [DoInitialize, LoopTick, LoopTick, DoPause, LoopTick, LoopTick];
    assert back == [DoResume, LoopTick, LoopTick, LoopTick, DoShutdown];
    StartPauseAndTimeOut<C>();
    ResumeThenShutdownBlocks<C>();
    RunAsWrittenConcat(Start<C>(), front, back);
    assert front + back == acts;
  }

  /** The thread blocked in `_configure` after its first paused wait timed out. */
  function StuckAfterMainLoop<C>(): Snapshot<C>
  {
    Snapshot(Worker(Paused, false, None, true, Waiting, [OnInitialize, MainLoop, OnPause]), true, false)
  }

  lemma StartPauseAndTimeOut<C>()
    ensures RunAsWritten(Start<C>(), [DoInitialize, LoopTick, LoopTick, DoPause, LoopTick, LoopTick])
            == Execution([Some(Ok), Some(Ok), Some(Ok), Some(Ok), Some(Ok), Some(Ok)], StuckAfterMainLoop<C>())
  {
  }

  lemma ResumeThenShutdownBlocks<C>()
    ensures var e := RunAsWritten(StuckAfterMainLoop<C>(), [DoResume, LoopTick, LoopTick, LoopTick, DoShutdown]);
      && e.outcomes == [Some(Ok), Some(Ok), Some(Ok), Some(Ok), None]
      && e.last.worker.trace == [OnInitialize, MainLoop, OnPause]
      && e.last.blocked
  {
  }
}

/**
 When the barrier that keeps parameter writers out is up in a Start-Stop cycle: from
 the start until the user's callback has completed, and as long as the state is Running
 when there is no callback to complete.
 */
module ClockBarrier {
  import opened ClockLifecycle
  import opened ClockStop
  import opened NotificationQueue

  /** Since the last Start the notifier has run the callback to its end. */
  ghost predicate Completed(steps: seq<Step>)
    decreases |steps|
  {
    if steps == [] then false
    else
      var init, last := steps[..|steps| - 1], steps[|steps| - 1];
      if !Enabled(Exec(START, init), last) then Completed(init)
      else last == NotifierComplete || (last != CallStart && Completed(init))
  }

  /** Since the last Start the notifier has taken a completion while a callback was
      registered. */
  ghost predicate Offered(steps: seq<Step>)
    decreases |steps|
  {
    if steps == [] then false
    else
      var init, last := steps[..|steps| - 1], steps[|steps| - 1];
      var s := Exec(START, init);
      if !Enabled(s, last) then Offered(init)
      else (last == NotifierGet && TakesCompletion(s)) || (last != CallStart && Offered(init))
  }

  predicate TakesCompletion(s: State) {
    s.callback && s.queue != [] && s.queue[0].kind == NtpSyncComplete
  }

  predicate IsBusy(n: Notifier) {
    n == Saving || n == Calling || n == Completing
  }

  /** The same, told from the state. */
  predicate IsDone(s: State) {
    Called in s.events && s.notifier != Completing
  }

  /** While Running, and in a Stop until the daemon has been waited for. */
  predicate UpUntilDone(s: State, needed: bool) {
    s.flag <==> needed && !IsDone(s)
  }

  ghost predicate BarrierOk(s: State) {
    && (s.notifierId ==> s.monitorId)
    && (s.notifier == Completing ==> Called in s.events)
    && match s.control
       case Free => s.life == Running ==> UpUntilDone(s, s.monitorId)
       case Launching => s.flag
       case CreatingMonitor => s.flag
       case CreatingNotifier => s.flag && s.monitorId && s.events == []
       case Settling(life) => life == Running ==> UpUntilDone(s, s.monitorId)
       case Stopping(stage, ok, starting) =>
         if starting then !NotifierAlive(s.notifier)
         else if stage == WaitDaemon then UpUntilDone(s, ok)
         else if stage == Lower then true
         else ok && UpUntilDone(s, s.monitorId) && (stage == ForgetMonitor ==> s.monitorId)
       case _ => true
  }

  lemma CallKeepsBarrier(s: State, step: Step)
    requires Inv(s) && BarrierOk(s) && Enabled(s, step) && IsCall(step)
    ensures BarrierOk(Apply(s, step))
  {
  }

  lemma MonitorStepKeepsBarrier(s: State, step: Step)
    requires BarrierOk(s) && IsMonitorStep(step)
    ensures BarrierOk(Apply(s, step))
  {
  }

  lemma GetKeepsBarrier(s: State)
    requires BarrierOk(s) && s.notifier == Waiting && s.queue != []
    ensures BarrierOk(GetStep(s))
  {
    GetTakes(s);
  }

  lemma AliveIsAwaited(s: State)
    requires Threads(s) && NotifierAlive(s.notifier)
    ensures match s.control
            case Free => s.life == Running
            case Settling(life) => life == Running
            case Stopping(stage, _, _) => IsNotifierStage(stage)
            case _ => false
  {
  }

  lemma SaveKeepsBarrier(s: State)
    requires Inv(s) && BarrierOk(s) && s.notifier == Saving
    ensures BarrierOk(Apply(s, NotifierSave))
  {
    AliveIsAwaited(s);
  }

  lemma CallbackKeepsBarrier(s: State)
    requires Inv(s) && BarrierOk(s) && s.notifier == Calling
    ensures BarrierOk(Apply(s, NotifierCall))
  {
    AliveIsAwaited(s);
  }

  lemma CompleteKeepsBarrier(s: State)
    requires Inv(s) && BarrierOk(s) && s.notifier == Completing
    ensures BarrierOk(Apply(s, NotifierComplete)) && IsDone(Apply(s, NotifierComplete))
  {
    AliveIsAwaited(s);
  }

  lemma NotifierStageKeepsBarrier(s: State)
    requires Inv(s) && BarrierOk(s) && s.control.Stopping? && IsNotifierStage(s.control.stage)
    ensures BarrierOk(DestroyNotifier(s))
  {
  }

  lemma JoiningKeepsBarrier(s: State, ok: bool)
    requires Inv(s) && BarrierOk(s) && s.control.Stopping?
    requires s.control.stage == AskMonitor || s.control.stage == JoinMonitor || s.control.stage == ForgetMonitor
    ensures BarrierOk(DestroyMonitor(s, ok))
  {
  }

  lemma DaemonKeepsBarrier(s: State, ok: bool)
    requires Inv(s) && BarrierOk(s) && s.control.Stopping?
    requires s.control.stage == WaitDaemon || s.control.stage == Lower
    ensures BarrierOk(DestroyMonitor(s, ok))
  {
  }

  lemma AdvanceKeepsBarrier(s: State, ok: bool)
    requires Inv(s) && BarrierOk(s) && s.control != Free && !s.control.Stopping?
    ensures BarrierOk(AdvanceStep(s, ok))
  {
  }

  lemma StopKeepsBarrier(s: State, ok: bool)
    requires Inv(s) && BarrierOk(s) && s.control.Stopping?
    ensures BarrierOk(StopStep(s, ok))
  {
    if IsNotifierStage(s.control.stage) {
      NotifierStageKeepsBarrier(s);
    } else if s.control.stage == WaitDaemon || s.control.stage == Lower {
      DaemonKeepsBarrier(s, ok);
    } else {
      JoiningKeepsBarrier(s, ok);
    }
  }

  lemma StepKeepsBarrier(s: State, step: Step)
    requires Inv(s) && BarrierOk(s)
    ensures BarrierOk(Apply(s, step))
  {
    if Enabled(s, step) {
      if IsCall(step) {
        CallKeepsBarrier(s, step);
      } else if IsMonitorStep(step) {
        MonitorStepKeepsBarrier(s, step);
      } else {
        match step
        case NotifierGet => GetKeepsBarrier(s);
        case NotifierSave => SaveKeepsBarrier(s);
        case NotifierCall => CallbackKeepsBarrier(s);
        case NotifierComplete => CompleteKeepsBarrier(s);
        case Advance(ok) => if s.control.Stopping? { StopKeepsBarrier(s, ok); } else { AdvanceKeepsBarrier(s, ok); }
      }
    }
  }

  lemma {:induction false} RunKeepsBarrier(steps: seq<Step>)
    ensures BarrierOk(Exec(START, steps))
    decreases |steps|
  {
    if steps != [] {
      RunKeepsBarrier(steps[..|steps| - 1]);
      RunKeepsInv(steps[..|steps| - 1]);
      StepKeepsBarrier(Exec(START, steps[..|steps| - 1]), steps[|steps| - 1]);
    }
  }

  // ----------------------------------------------------------- state and history

  lemma OtherStepKeepsDone(s: State, step: Step)
    requires Inv(s) && BarrierOk(s) && Enabled(s, step) && step != CallStart && step != NotifierComplete
    ensures IsDone(Apply(s, step)) <==> IsDone(s)
  {
    if step.Advance? && s.control.Stopping? {
      if IsNotifierStage(s.control.stage) {
        DestroyNotifierSparesThreads(s);
      } else {
        DestroyMonitorSparesThreads(s, step.ok);
      }
    } else if step == NotifierGet {
      GetTakes(s);
    } else if step == NotifierCall {
      CallbackIsFirst(s);
    }
  }

  lemma CallbackIsFirst(s: State)
    requires OncePerCycle(s) && s.notifier == Calling
    ensures !IsDone(s)
  {
  }

  lemma {:induction false} DoneIsCompleted(steps: seq<Step>)
    ensures IsDone(Exec(START, steps)) <==> Completed(steps)
    decreases |steps|
  {
    if steps != [] {
      var init, last := steps[..|steps| - 1], steps[|steps| - 1];
      var s := Exec(START, init);
      DoneIsCompleted(init);
      RunKeepsInv(init);
      RunKeepsBarrier(init);
      if Enabled(s, last) {
        if last == NotifierComplete {
          CompleteKeepsBarrier(s);
        } else if last != CallStart {
          OtherStepKeepsDone(s, last);
        }
      }
    }
  }

  lemma AdvanceMakesNotBusy(s: State, ok: bool)
    requires s.control != Free && IsBusy(AdvanceStep(s, ok).notifier)
    ensures IsBusy(s.notifier)
  {
    if s.control.Stopping? {
      if IsNotifierStage(s.control.stage) {
        DestroyNotifierSparesThreads(s);
      } else {
        DestroyMonitorSparesThreads(s, ok);
      }
    }
  }

  lemma StepMakesBusy(s: State, step: Step)
    requires Enabled(s, step) && IsBusy(Apply(s, step).notifier)
    ensures IsBusy(s.notifier) || (step == NotifierGet && TakesCompletion(s))
  {
    if step.Advance? {
      AdvanceMakesNotBusy(s, step.ok);
    }
  }

  lemma RestingNotifierIsIdle(s: State)
    requires Inv(s) && s.life == Ready
    ensures !IsBusy(s.notifier)
  {
  }

  lemma {:induction false} CompletedWasOffered(steps: seq<Step>)
    ensures IsBusy(Exec(START, steps).notifier) || Completed(steps) ==> Offered(steps)
    decreases |steps|
  {
    if steps != [] {
      var init, last := steps[..|steps| - 1], steps[|steps| - 1];
      var s := Exec(START, init);
      CompletedWasOffered(init);
      RunKeepsInv(init);
      if Enabled(s, last) {
        if last == CallStart {
          RestingNotifierIsIdle(s);
        } else if IsBusy(Exec(START, steps).notifier) {
          StepMakesBusy(s, last);
        }
      }
    }
  }

  // -------------------------------------------------------------------- theorems

  /** In every run, while Running: the barrier is up if and only if no Stop has waited
      for the daemon in vain and the callback has not completed since the Start. */
  lemma {:induction false} WhenBarrierIsUp(steps: seq<Step>)
    requires Exec(START, steps).life == Running
    ensures Exec(START, steps).flag <==> !SomeWaitFailed(steps) && !Completed(steps)
  {
    RunKeepsInv(steps);
    RunKeepsBarrier(steps);
    DoneIsCompleted(steps);
    WhenStuck(steps);
  }

  /** A cycle in which the notifier takes no completion for a registered callback keeps
      writers out for as long as the state is Running. */
  lemma {:induction false} BarrierStaysWithoutCallback(steps: seq<Step>)
    requires Exec(START, steps).life == Running && !SomeWaitFailed(steps) && !Offered(steps)
    ensures Exec(START, steps).flag
  {
    WhenBarrierIsUp(steps);
    CompletedWasOffered(steps);
  }

  lemma BusyIsBehindBarrier(s: State)
    requires Inv(s) && BarrierOk(s) && IsBusy(s.notifier)
    ensures s.flag
  {
    AliveIsAwaited(s);
  }

  /** In every run and every state of it, a Stop under way included: while the notifier
      saves the parameters and runs the callback, the barrier is up. */
  lemma {:induction false} SavesBehindBarrier(steps: seq<Step>)
    requires IsBusy(Exec(START, steps).notifier)
    ensures Exec(START, steps).flag
  {
    RunKeepsInv(steps);
    RunKeepsBarrier(steps);
    BusyIsBehindBarrier(Exec(START, steps));
  }
}

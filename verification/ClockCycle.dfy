/**
 What a Start-Stop cycle achieves: when calls are let in and how a Start ends, and that
 a completed synchronization is reported, saved and handed to the user's callback.
 */
module ClockCycle {
  import opened ClockBarrier
  import opened ClockLifecycle
  import opened ClockStop
  import opened NotificationQueue

  // ------------------------------------------------------------------------ calls

  /** Which calls are let in: Init in Idle, Deinit and Start in Ready, Stop in Running,
      and a callback can be set in Ready and Running; every other call changes nothing. */
  lemma WhenCallsAreLetIn(s: State, on: bool)
    ensures Apply(s, CallInit) == if s.life == Idle then s.(life := Lock, control := Initializing) else s
    ensures Apply(s, CallDeinit) == if s.life == Ready then s.(life := Lock, control := Deinitializing) else s
    ensures Apply(s, CallStart) == if s.life == Ready then s.(life := Lock, control := Marking, events := []) else s
    ensures Apply(s, CallStop)
         == if s.life == Running then s.(life := Lock, control := Stopping(ReadId, true, false)) else s
    ensures Apply(s, SetCallback(on))
         == if s.life == Ready || s.life == Running then s.(callback := on) else s
  {
  }

  /** Init ends in Ready if its calls succeed, else in Idle; Deinit ends in Idle. */
  lemma {:induction false} InitAndDeinitOutcome(steps: seq<Step>, ok: bool, any: bool)
    ensures var s := Exec(START, steps);
            && (s.life == Idle ==>
                 Apply(Apply(Apply(s, CallInit), Advance(ok)), Advance(any)) == s.(life := if ok then Ready else Idle))
            && (s.life == Ready ==>
                 Apply(Apply(Apply(s, CallDeinit), Advance(ok)), Advance(any)) == s.(life := Idle))
  {
    RunKeepsInv(steps);
    RestingAdvances(Exec(START, steps), ok, any);
  }

  lemma RestingAdvances(s: State, ok: bool, any: bool)
    requires ControlOk(s)
    ensures s.life == Idle ==>
              Apply(Apply(Apply(s, CallInit), Advance(ok)), Advance(any)) == s.(life := if ok then Ready else Idle)
    ensures s.life == Ready ==>
              Apply(Apply(Apply(s, CallDeinit), Advance(ok)), Advance(any)) == s.(life := Idle)
  {
    if s.life == Idle || s.life == Ready {
      assert s.control == Free && !s.flag;
    }
  }

  /** A Start fails when the daemon, the monitor or the notifier cannot be started. */
  predicate FailsToStart(s: State, step: Step) {
    step == Advance(false)
    && (s.control == Launching || s.control == CreatingMonitor || s.control == CreatingNotifier)
  }

  ghost predicate SomeStartFails(s: State, steps: seq<Step>)
    decreases |steps|
  {
    steps != [] &&
    (var init := steps[..|steps| - 1];
     SomeStartFails(s, init) || FailsToStart(Exec(s, init), steps[|steps| - 1]))
  }

  /** Where a Start is that has failed, or has not. */
  ghost predicate InStart(s: State, failed: bool) {
    match s.control
    case Free => s.life == if failed then Ready else Running
    case Settling(life) => life == if failed then Ready else Running
    case Stopping(_, _, starting) => starting && failed
    case Failing => failed
    case Marking => !failed
    case Launching => !failed
    case CreatingMonitor => !failed
    case CreatingNotifier => !failed
    case _ => false
  }

  lemma StopStageStaysInStart(s: State, ok: bool)
    requires InStart(s, true) && s.control.Stopping?
    ensures InStart(StopStep(s, ok), true)
  {
    if IsNotifierStage(s.control.stage) {
      StartStopsNotifier(s);
    } else {
      StartStopsMonitor(s, ok);
    }
  }

  lemma StartStopsNotifier(s: State)
    requires s.control.Stopping? && s.control.starting && IsNotifierStage(s.control.stage)
    ensures InStart(DestroyNotifier(s), true)
  {
  }

  lemma StartStopsMonitor(s: State, ok: bool)
    requires s.control.Stopping? && s.control.starting && !IsNotifierStage(s.control.stage)
    ensures InStart(DestroyMonitor(s, ok), true)
  {
    if s.control.stage != Lower {
      StoppingGoesOn(s, ok);
    }
  }

  lemma JoiningGoesOn(s: State, ok: bool)
    requires s.control.Stopping? && (s.control.stage == AskMonitor || s.control.stage == JoinMonitor)
    ensures var t := DestroyMonitor(s, ok);
            t.control.Stopping? && t.control.starting == s.control.starting && t.queue == s.queue
  {
  }

  lemma ForgettingGoesOn(s: State, ok: bool)
    requires s.control.Stopping? && (s.control.stage == ForgetMonitor || s.control.stage == WaitDaemon)
    ensures var t := DestroyMonitor(s, ok);
            t.control.Stopping? && t.control.starting == s.control.starting && t.queue == s.queue
  {
  }

  lemma StoppingGoesOn(s: State, ok: bool)
    requires s.control.Stopping? && !IsNotifierStage(s.control.stage) && s.control.stage != Lower
    ensures var t := DestroyMonitor(s, ok);
            t.control.Stopping? && t.control.starting == s.control.starting && t.queue == s.queue
  {
    if s.control.stage == AskMonitor || s.control.stage == JoinMonitor {
      JoiningGoesOn(s, ok);
    } else {
      ForgettingGoesOn(s, ok);
    }
  }

  lemma StartAdvances(s: State, failed: bool, ok: bool)
    requires InStart(s, failed) && ControlOk(s) && s.control != Free && !s.control.Stopping?
    ensures InStart(AdvanceStep(s, ok), failed || FailsToStart(s, Advance(ok)))
  {
  }

  lemma StepStaysInStart(s: State, step: Step, failed: bool)
    requires InStart(s, failed) && ControlOk(s) && s.control != Free
    ensures InStart(Apply(s, step), failed || FailsToStart(s, step))
  {
    if !step.Advance? {
      OtherStepSparesControl(s, step);
    } else if Enabled(s, step) {
      if s.control.Stopping? {
        StopStageStaysInStart(s, step.ok);
      } else {
        StartAdvances(s, failed, step.ok);
      }
    }
  }

  lemma {:induction false} CallStaysInStart(s: State, steps: seq<Step>)
    requires InStart(s, false) && Inv(s) && OneCall(s, steps)
    ensures InStart(Exec(s, steps), SomeStartFails(s, steps)) && Inv(Exec(s, steps))
    decreases |steps|
  {
    if steps != [] {
      var init, last := steps[..|steps| - 1], steps[|steps| - 1];
      CallStaysInStart(s, init);
      StepStaysInStart(Exec(s, init), last, SomeStartFails(s, init));
      StepKeepsInv(Exec(s, init), last);
    }
  }

  /** How a Start ends, whatever happens during it: in Running, with both threads and the
      barrier up unless the callback is through already, if daemon, monitor and notifier
      could be started; else back in Ready. */
  lemma {:induction false} StartOutcome(before: seq<Step>, during: seq<Step>)
    requires Exec(START, before).life == Ready
    requires OneCall(Exec(START, before + [CallStart]), during)
    requires Exec(START, before + [CallStart] + during).control == Free
    ensures var t := Exec(START, before + [CallStart] + during);
            if SomeStartFails(Exec(START, before + [CallStart]), during) then t.life == Ready
            else t.life == Running && t.flag == !Completed(before + [CallStart] + during)
  {
    var s, all := Exec(START, before + [CallStart]), before + [CallStart] + during;
    RunKeepsInv(before);
    RunKeepsInv(before + [CallStart]);
    assert (before + [CallStart])[..|before|] == before;
    assert s == Exec(START, before).(life := Lock, control := Marking, events := []);
    CallStaysInStart(s, during);
    ExecConcat(START, before + [CallStart], during);
    if !SomeStartFails(s, during) {
      WhenBarrierIsUp(all);
      NoStopFailsDuringStart(before + [CallStart], during);
    }
  }

  /** A Start comes after no failed Stop, and none can fail during it. */
  lemma {:induction false} NoStopFailsDuringStart(before: seq<Step>, during: seq<Step>)
    requires InStart(Exec(START, before), false) && Exec(START, before).control == Marking
    requires OneCall(Exec(START, before), during)
    ensures !SomeWaitFailed(before + during)
    decreases |during|
  {
    RunKeepsInv(before);
    if during == [] {
      assert before + during == before;
      WhenStuck(before);
    } else {
      var init, last := during[..|during| - 1], during[|during| - 1];
      NoStopFailsDuringStart(before, init);
      CallStaysInStart(Exec(START, before), init);
      ExecConcat(START, before, init);
      assert (before + during)[..|before + during| - 1] == before + init;
      assert !IsWaitingForDaemon(Exec(START, before + init));
    }
  }

  // ------------------------------------------------------------------ the callback

  lemma OfferedStays(s: State, step: Step)
    requires Inv(s) && BarrierOk(s) && Enabled(s, step) && step != CallStart
    requires IsBusy(s.notifier) || Called in s.events || (step == NotifierGet && TakesCompletion(s))
    ensures var t := Apply(s, step); IsBusy(t.notifier) || Called in t.events
  {
    if step.Advance? {
      AdvanceSparesCall(s, step.ok);
    } else if step == NotifierGet {
      GetStarts(s);
    } else if step == NotifierCall {
      assert (s.events + [Called])[|s.events|] == Called;
    }
  }

  lemma AdvanceSparesCall(s: State, ok: bool)
    requires Inv(s) && s.control != Free
    ensures var t := AdvanceStep(s, ok);
            t.events == s.events && (IsBusy(s.notifier) ==> t.notifier == s.notifier)
  {
    if s.control.Stopping? {
      if IsNotifierStage(s.control.stage) {
        DestroyNotifierSparesThreads(s);
      } else {
        DestroyMonitorSparesThreads(s, ok);
      }
    }
  }

  /** A completion taken with a callback registered is processed, not dropped. */
  lemma GetStarts(s: State)
    requires s.notifier == Waiting && s.queue != []
    ensures var t := Apply(s, NotifierGet);
            && t == s.(queue := s.queue[1..], notifier := t.notifier)
            && (IsBusy(t.notifier) <==> TakesCompletion(s))
  {
  }

  lemma {:induction false} OfferedIsServed(steps: seq<Step>)
    ensures Offered(steps) ==> IsBusy(Exec(START, steps).notifier) || Called in Exec(START, steps).events
    decreases |steps|
  {
    if steps != [] {
      var init, last := steps[..|steps| - 1], steps[|steps| - 1];
      var s := Exec(START, init);
      OfferedIsServed(init);
      RunKeepsInv(init);
      RunKeepsBarrier(init);
      if Offered(steps) && Enabled(s, last) && last != CallStart {
        OfferedStays(s, last);
      }
    }
  }

  /** In every run, when the notifier is not at it: the callback has run in this cycle if
      and only if a completion was taken while a callback was registered. */
  lemma {:induction false} CallbackRunsWhenOffered(steps: seq<Step>)
    requires !IsBusy(Exec(START, steps).notifier)
    ensures Called in Exec(START, steps).events <==> Offered(steps)
  {
    OfferedIsServed(steps);
    DoneIsCompleted(steps);
    CompletedWasOffered(steps);
  }

  lemma {:induction false} CountHead(queue: seq<Notice>)
    requires queue != [] && queue[0].kind == NtpSyncComplete
    ensures Count(queue, NtpSyncComplete) >= 1
  {
    CountTail(queue, NtpSyncComplete);
  }

  lemma CompletionComesFirst(s: State)
    requires OncePerCycle(s) && s.notifier == Waiting && s.queue != [] && s.queue[0].kind == NtpSyncComplete
    ensures s.events == [] && s.queue[0].additional
  {
    CountHead(s.queue);
  }

  lemma ServedInFour(s: State)
    requires s.notifier == Waiting && s.callback && s.events == []
    requires s.queue != [] && s.queue[0].kind == NtpSyncComplete && s.queue[0].additional
    ensures Apply(Apply(Apply(Apply(s, NotifierGet), NotifierSave), NotifierCall), NotifierComplete)
         == s.(queue := s.queue[1..], events := [Saved, Called], flag := false)
  {
    assert Apply(s, NotifierGet) == s.(queue := s.queue[1..], notifier := Saving);
  }

  lemma ExecNext(steps: seq<Step>, step: Step)
    ensures Exec(START, steps + [step]) == Apply(Exec(START, steps), step)
  {
    assert (steps + [step])[..|steps|] == steps;
  }

  /** From every reachable state with a completion at the head: with a callback
      registered the notifier saves the parameters, calls it and lowers the barrier;
      without one the completion is dropped. */
  lemma {:induction false} CompletionIsServed(steps: seq<Step>)
    requires var s := Exec(START, steps);
             s.notifier == Waiting && s.queue != [] && s.queue[0].kind == NtpSyncComplete
    ensures var s := Exec(START, steps);
            && (s.callback ==>
                 Exec(START, steps + [NotifierGet] + [NotifierSave] + [NotifierCall] + [NotifierComplete])
                 == s.(queue := s.queue[1..], events := [Saved, Called], flag := false))
            && (!s.callback ==> Exec(START, steps + [NotifierGet]) == s.(queue := s.queue[1..]))
  {
    var s := Exec(START, steps);
    RunKeepsInv(steps);
    CompletionComesFirst(s);
    ExecNext(steps, NotifierGet);
    ExecNext(steps + [NotifierGet], NotifierSave);
    ExecNext(steps + [NotifierGet] + [NotifierSave], NotifierCall);
    ExecNext(steps + [NotifierGet] + [NotifierSave] + [NotifierCall], NotifierComplete);
    if s.callback {
      ServedInFour(s);
    }
  }

  // ------------------------------------------------------------------- the monitor

  /** Running with a monitor means running with a notifier, and only completions and
      requests to finish are ever queued. */
  ghost predicate NotifierUp(s: State) {
    && (forall i :: 0 <= i < |s.queue| ==> s.queue[i].kind != Nothing)
    && match s.control
       case Free => s.life == Running && s.monitorId ==> s.notifierId && NotifierAlive(s.notifier)
       case Settling(life) => life == Running && s.monitorId ==> s.notifierId && NotifierAlive(s.notifier)
       case _ => true
  }

  lemma StopKeepsNotifierUp(s: State, ok: bool)
    requires Inv(s) && NotifierUp(s) && s.control.Stopping?
    ensures NotifierUp(StopStep(s, ok))
  {
    if IsNotifierStage(s.control.stage) {
      NotifierStageKeepsUp(s);
    } else {
      MonitorStageKeepsUp(s, ok);
    }
  }

  lemma NotifierStageKeepsUp(s: State)
    requires NotifierUp(s) && s.control.Stopping? && IsNotifierStage(s.control.stage)
    ensures NotifierUp(DestroyNotifier(s))
  {
  }

  lemma MonitorStageKeepsUp(s: State, ok: bool)
    requires Inv(s) && NotifierUp(s) && s.control.Stopping? && !IsNotifierStage(s.control.stage)
    ensures NotifierUp(DestroyMonitor(s, ok))
  {
    if s.control.stage != Lower {
      StoppingGoesOn(s, ok);
    }
  }

  lemma GetKeepsUp(s: State)
    requires Inv(s) && NotifierUp(s) && s.notifier == Waiting && s.queue != []
    ensures NotifierUp(GetStep(s))
  {
    GetTakes(s);
    if s.queue[0].kind == FinReq {
      FinIsExpected(s);
    }
  }

  lemma AdvanceKeepsUp(s: State, ok: bool)
    requires Inv(s) && NotifierUp(s) && s.control != Free && !s.control.Stopping?
    ensures NotifierUp(AdvanceStep(s, ok))
  {
  }

  lemma OtherKeepsUp(s: State, step: Step)
    requires NotifierUp(s) && Enabled(s, step) && !step.Advance? && step != NotifierGet
    ensures NotifierUp(Apply(s, step))
  {
  }

  lemma StepKeepsNotifierUp(s: State, step: Step)
    requires Inv(s) && NotifierUp(s)
    ensures NotifierUp(Apply(s, step))
  {
    if Enabled(s, step) {
      if !step.Advance? && step != NotifierGet {
        OtherKeepsUp(s, step);
      } else if step == NotifierGet {
        GetKeepsUp(s);
      } else if s.control.Stopping? {
        StopKeepsNotifierUp(s, step.ok);
      } else {
        AdvanceKeepsUp(s, step.ok);
      }
    }
  }

  lemma {:induction false} RunKeepsNotifierUp(steps: seq<Step>)
    ensures NotifierUp(Exec(START, steps))
    decreases |steps|
  {
    if steps != [] {
      RunKeepsNotifierUp(steps[..|steps| - 1]);
      RunKeepsInv(steps[..|steps| - 1]);
      StepKeepsNotifierUp(Exec(START, steps[..|steps| - 1]), steps[|steps| - 1]);
    }
  }

  lemma NothingCounted(queue: seq<Notice>)
    requires forall i :: 0 <= i < |queue| ==> queue[i].kind != Nothing
    requires Count(queue, NtpSyncComplete) == 0 && Count(queue, FinReq) == 0
    ensures queue == []
  {
  }

  lemma MonitorReports(s: State)
    requires s.notifierId && s.monitor == Polling && s.queue == []
    ensures Apply(Apply(s, MonitorCheck), MonitorAppend) == s.(monitor := Posted, queue := [COMPLETE])
  {
  }

  lemma PollingQueueIsEmpty(s: State)
    requires Inv(s) && NotifierUp(s) && s.control == Free && s.monitor == Polling && s.notifier == Waiting
    ensures s.queue == []
  {
    NothingCounted(s.queue);
  }

  /** From every reachable Running state that is not stuck, with the monitor still polling
      and the notifier waiting, a completed synchronization reaches the user: it is
      posted, the parameters are saved, the callback runs and the barrier comes down. */
  lemma {:induction false} SynchronizationReachesUser(steps: seq<Step>)
    requires var s := Exec(START, steps);
             && s.life == Running && !SomeWaitFailed(steps) && s.callback
             && s.monitor == Polling && s.notifier == Waiting
    ensures var s := Exec(START, steps);
            Exec(START, steps + [MonitorCheck] + [MonitorAppend]
                        + [NotifierGet] + [NotifierSave] + [NotifierCall] + [NotifierComplete])
            == s.(monitor := Posted, events := [Saved, Called], flag := false)
  {
    var s, posted := Exec(START, steps), steps + [MonitorCheck] + [MonitorAppend];
    RunKeepsInv(steps);
    RunKeepsNotifierUp(steps);
    WhenStuck(steps);
    PollingQueueIsEmpty(s);
    MonitorReports(s);
    ExecNext(steps, MonitorCheck);
    ExecNext(steps + [MonitorCheck], MonitorAppend);
    CompletionIsServed(posted);
    assert [COMPLETE][1..] == [];
  }
}

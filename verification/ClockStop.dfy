/**
 When a Stop of the clock manager succeeds.

 A Stop joins the monitor before it waits for the daemon.  If that wait fails, the
 state goes back to Running without a monitor, and no later Stop can join one.
 */
module ClockStop {
  import opened ClockLifecycle
  import opened NotificationQueue

  predicate IsWaitingForDaemon(s: State) {
    s.control.Stopping? && s.control.stage == WaitDaemon && !s.control.starting
  }

  /** In some step of the run, a Stop waited for the daemon in vain. */
  ghost predicate SomeWaitFailed(steps: seq<Step>)
    decreases |steps|
  {
    steps != [] &&
    (var init := steps[..|steps| - 1];
     || SomeWaitFailed(init)
     || (IsWaitingForDaemon(Exec(START, init)) && steps[|steps| - 1] == Advance(false)))
  }

  /** Running, or stopping in vain, without a monitor to join. */
  ghost predicate Stuck(s: State) {
    && !s.monitorId
    && match s.control
       case Free => s.life == Running
       case Stopping(stage, ok, starting) =>
         && s.life == Lock && !starting && stage != ForgetMonitor
         && (stage == WaitDaemon || stage == Lower ==> !ok)
       case Settling(life) => s.life == Lock && life == Running
       case _ => false
  }

  /** Wherever a monitor is needed there is one, and a Stop has not failed so far. */
  ghost predicate Healthy(s: State) {
    match s.control
    case Free => s.life == Running ==> s.monitorId
    case CreatingNotifier => s.monitorId
    case Settling(life) => life == Running ==> s.monitorId
    case Stopping(stage, ok, starting) =>
      !starting ==> ok && (stage == WaitDaemon || stage == Lower || s.monitorId)
    case _ => true
  }

  lemma StuckWithNotifier(s: State)
    requires Stuck(s) && s.control.Stopping? && IsNotifierStage(s.control.stage)
    ensures Stuck(DestroyNotifier(s))
  {
  }

  lemma StuckAskingMonitor(s: State, ok: bool)
    requires Stuck(s) && s.control.Stopping? && (s.control.stage == AskMonitor || s.control.stage == JoinMonitor)
    ensures Stuck(DestroyMonitor(s, ok))
  {
  }

  lemma StuckEnding(s: State, ok: bool)
    requires Stuck(s) && s.control.Stopping? && (s.control.stage == WaitDaemon || s.control.stage == Lower)
    ensures Stuck(DestroyMonitor(s, ok))
  {
  }

  lemma StuckStopStaysStuck(s: State, ok: bool)
    requires Stuck(s) && s.control.Stopping?
    ensures Stuck(StopStep(s, ok))
  {
    if IsNotifierStage(s.control.stage) {
      StuckWithNotifier(s);
    } else if s.control.stage == AskMonitor || s.control.stage == JoinMonitor {
      StuckAskingMonitor(s, ok);
    } else {
      StuckEnding(s, ok);
    }
  }

  lemma StuckStaysStuck(s: State, step: Step)
    requires Stuck(s)
    ensures Stuck(Apply(s, step))
  {
    if step.Advance? && s.control.Stopping? {
      StuckStopStaysStuck(s, step.ok);
    }
  }

  lemma HealthyWithNotifier(s: State)
    requires Healthy(s) && s.control.Stopping? && IsNotifierStage(s.control.stage)
    ensures Healthy(DestroyNotifier(s))
  {
  }

  lemma HealthyWithMonitor(s: State, ok: bool)
    requires Healthy(s) && s.control.Stopping?
    requires s.control.stage == AskMonitor || s.control.stage == JoinMonitor || s.control.stage == ForgetMonitor
    ensures Healthy(DestroyMonitor(s, ok))
  {
  }

  lemma HealthyWithDaemon(s: State, ok: bool)
    requires Healthy(s) && s.control.Stopping? && (s.control.stage == WaitDaemon || s.control.stage == Lower)
    requires IsWaitingForDaemon(s) ==> ok
    ensures Healthy(DestroyMonitor(s, ok))
  {
  }

  lemma AdvanceKeepsHealthy(s: State, ok: bool)
    requires Healthy(s) && s.control != Free && (IsWaitingForDaemon(s) ==> ok)
    ensures Healthy(AdvanceStep(s, ok))
  {
    if s.control.Stopping? {
      if IsNotifierStage(s.control.stage) {
        HealthyWithNotifier(s);
      } else if s.control.stage == WaitDaemon || s.control.stage == Lower {
        HealthyWithDaemon(s, ok);
      } else {
        HealthyWithMonitor(s, ok);
      }
    }
  }

  lemma ThreadStepSparesControl(s: State, step: Step)
    requires !step.Advance? && !IsCall(step)
    ensures var t := Apply(s, step); t.control == s.control && t.monitorId == s.monitorId && t.life == s.life
  {
  }

  lemma OtherStepSparesControl(s: State, step: Step)
    requires !step.Advance? && s.life == Lock
    ensures var t := Apply(s, step); t.control == s.control && t.monitorId == s.monitorId && t.life == s.life
  {
    if IsCall(step) {
      assert !Enabled(s, step);
    } else {
      ThreadStepSparesControl(s, step);
    }
  }

  lemma StepKeepsHealthy(s: State, step: Step)
    requires Healthy(s) && ControlOk(s) && !(IsWaitingForDaemon(s) && step == Advance(false))
    ensures Healthy(Apply(s, step))
  {
    if step.Advance? && s.control != Free {
      AdvanceKeepsHealthy(s, step.ok);
    } else if s.control != Free {
      OtherStepSparesControl(s, step);
    }
  }

  lemma FailedWaitIsStuck(s: State)
    requires ControlOk(s) && IsWaitingForDaemon(s)
    ensures Stuck(Apply(s, Advance(false)))
  {
    assert Apply(s, Advance(false)) == DestroyMonitor(s, false);
  }

  lemma HealthyIsNotStuck(s: State)
    requires ControlOk(s) && Healthy(s)
    ensures !Stuck(s)
  {
  }

  lemma {:induction false} RunIsHealthyOrStuck(steps: seq<Step>)
    ensures if SomeWaitFailed(steps) then Stuck(Exec(START, steps)) else Healthy(Exec(START, steps))
    decreases |steps|
  {
    if steps != [] {
      var init, last := steps[..|steps| - 1], steps[|steps| - 1];
      RunIsHealthyOrStuck(init);
      RunKeepsInv(init);
      if SomeWaitFailed(init) {
        StuckStaysStuck(Exec(START, init), last);
      } else if SomeWaitFailed(steps) {
        FailedWaitIsStuck(Exec(START, init));
      } else {
        StepKeepsHealthy(Exec(START, init), last);
      }
    }
  }

  /** In every run and at every point of it: the state is stuck exactly when some Stop
      has waited for the daemon in vain. */
  lemma {:induction false} WhenStuck(steps: seq<Step>)
    ensures Stuck(Exec(START, steps)) <==> SomeWaitFailed(steps)
  {
    RunIsHealthyOrStuck(steps);
    RunKeepsInv(steps);
    if !SomeWaitFailed(steps) {
      HealthyIsNotStuck(Exec(START, steps));
    }
  }

  // ----------------------------------------------------------- how a Stop ends

  /** A Stop called from Running is under way, or has just ended. */
  ghost predicate InStop(s: State) {
    match s.control
    case Free => s.life == Ready || (s.life == Running && !s.monitorId)
    case Stopping(_, _, starting) => !starting
    case Settling(life) => life == Ready || (life == Running && !s.monitorId)
    case _ => false
  }

  lemma NotifierStageStaysInStop(s: State)
    requires InStop(s) && s.control.Stopping? && IsNotifierStage(s.control.stage)
    ensures InStop(DestroyNotifier(s))
  {
  }

  lemma MonitorStageStaysInStop(s: State, ok: bool)
    requires InStop(s) && ControlOk(s) && s.control.Stopping? && !IsNotifierStage(s.control.stage)
    ensures InStop(DestroyMonitor(s, ok))
  {
  }

  lemma StepStaysInStop(s: State, step: Step)
    requires InStop(s) && ControlOk(s) && s.control != Free
    ensures InStop(Apply(s, step))
  {
    if !step.Advance? {
      OtherStepSparesControl(s, step);
    } else if s.control.Stopping? {
      if IsNotifierStage(s.control.stage) {
        NotifierStageStaysInStop(s);
      } else {
        MonitorStageStaysInStop(s, step.ok);
      }
    }
  }

  /** All of the steps are taken during one call. */
  ghost predicate OneCall(s: State, steps: seq<Step>)
    decreases |steps|
  {
    steps == [] || (OneCall(s, steps[..|steps| - 1]) && Exec(s, steps[..|steps| - 1]).control != Free)
  }

  lemma {:induction false} ExecConcat(s: State, a: seq<Step>, b: seq<Step>)
    ensures Exec(s, a + b) == Exec(Exec(s, a), b)
    decreases |b|
  {
    if b == [] {
      assert a + b == a;
    } else {
      ExecConcat(s, a, b[..|b| - 1]);
      assert (a + b)[..|a + b| - 1] == a + b[..|b| - 1];
    }
  }

  lemma {:induction false} CallStaysInStop(s: State, steps: seq<Step>)
    requires InStop(s) && Inv(s) && OneCall(s, steps)
    ensures InStop(Exec(s, steps)) && Inv(Exec(s, steps))
    decreases |steps|
  {
    if steps != [] {
      var init, last := steps[..|steps| - 1], steps[|steps| - 1];
      CallStaysInStop(s, init);
      StepStaysInStop(Exec(s, init), last);
      StepKeepsInv(Exec(s, init), last);
    }
  }

  lemma CallIsInStop(s: State)
    requires s.life == Running && ControlOk(s)
    ensures InStop(Apply(s, CallStop))
  {
  }

  /** How a Stop ends, whatever the threads and other callers do during it: in Ready
      if neither it nor any Stop before it waited for the daemon in vain, else in
      Running, where every later Stop ends as well. */
  lemma {:induction false} StopOutcome(before: seq<Step>, during: seq<Step>)
    requires Exec(START, before).life == Running
    requires OneCall(Exec(START, before + [CallStop]), during)
    requires Exec(START, before + [CallStop] + during).control == Free
    ensures Exec(START, before + [CallStop] + during).life
         == if SomeWaitFailed(before + [CallStop] + during) then Running else Ready
  {
    var s := Exec(START, before + [CallStop]);
    RunKeepsInv(before);
    RunKeepsInv(before + [CallStop]);
    CallIsInStop(Exec(START, before));
    assert (before + [CallStop])[..|before|] == before;
    CallStaysInStop(s, during);
    ExecConcat(START, before + [CallStop], during);
    WhenStuck(before + [CallStop] + during);
  }

  lemma {:induction false} FailuresAreForever(before: seq<Step>, after: seq<Step>)
    requires SomeWaitFailed(before)
    ensures SomeWaitFailed(before + after)
    decreases |after|
  {
    if after == [] {
      assert before + after == before;
    } else {
      var init := after[..|after| - 1];
      FailuresAreForever(before, init);
      assert (before + after)[..|before + after| - 1] == before + init;
    }
  }

  /** From a Stop that waits for the daemon in vain on, the state is Running or in a
      transition and never Ready again. */
  lemma FailedStopIsFinal(before: seq<Step>, after: seq<Step>)
    requires IsWaitingForDaemon(Exec(START, before))
    ensures var s := Exec(START, before + [Advance(false)] + after); s.life == Running || s.life == Lock
  {
    assert (before + [Advance(false)])[..|before|] == before;
    FailuresAreForever(before + [Advance(false)], after);
    WhenStuck(before + [Advance(false)] + after);
    RunKeepsInv(before + [Advance(false)] + after);
  }

  // -------------------------------------------------------- a Stop can be completed

  /** The parts still ahead. */
  function PartsLeft(control: Control): nat {
    match control
    case Stopping(stage, _, _) =>
      (match stage
       case ReadId => 12 case CheckPost => 11 case AppendPost => 10
       case JoinNotifier => 9 case ForgetNotifier => 8 case DeleteAll => 7
       case AskMonitor => 6 case JoinMonitor => 5 case ForgetMonitor => 4
       case WaitDaemon => 3 case Lower => 2)
    case Settling(_) => 1
    case _ => 0
  }

  /** What the thread being joined has yet to do. */
  function ThreadLeft(s: State): nat {
    if !s.control.Stopping? then 0
    else if s.control.stage == JoinNotifier then
      5 * |s.queue|
      + match s.notifier case Saving => 3 case Calling => 2 case Completing => 1 case _ => 0
    else if s.control.stage == JoinMonitor then
      match s.monitor case PostChecked => 2 case Polling => 1 case Posted => 1 case _ => 0
    else 0
  }

  /** A step that brings the call closer to its end. */
  function Helpful(s: State): Step {
    if s.control.Stopping? && s.control.stage == JoinNotifier && NotifierAlive(s.notifier) then
      match s.notifier
      case Saving => NotifierSave
      case Calling => NotifierCall
      case Completing => NotifierComplete
      case _ => NotifierGet
    else if s.control.Stopping? && s.control.stage == JoinMonitor && MonitorAlive(s.monitor) then
      if s.monitor == PostChecked then MonitorAppend else MonitorExit
    else Advance(true)
  }

  lemma JoiningNotifierHelps(s: State)
    requires Inv(s) && s.control.Stopping? && s.control.stage == JoinNotifier && NotifierAlive(s.notifier)
    ensures var t := Apply(s, Helpful(s)); t.control == s.control && ThreadLeft(t) < ThreadLeft(s)
  {
    assert Count(s.queue, FinReq) == 1;
    if s.notifier == Waiting {
      GetTakes(s);
    }
  }

  lemma JoiningMonitorHelps(s: State)
    requires Inv(s) && s.control.Stopping? && s.control.stage == JoinMonitor && MonitorAlive(s.monitor)
    ensures var t := Apply(s, Helpful(s)); t.control == s.control && ThreadLeft(t) < ThreadLeft(s)
  {
  }

  lemma NotifierStageHelps(s: State)
    requires ControlOk(s) && s.control.Stopping? && IsNotifierStage(s.control.stage)
    ensures PartsLeft(DestroyNotifier(s).control) < PartsLeft(s.control)
  {
  }

  lemma MonitorStageHelps(s: State)
    requires InStop(s) && s.control.Stopping? && !IsNotifierStage(s.control.stage)
    ensures PartsLeft(DestroyMonitor(s, true).control) < PartsLeft(s.control)
  {
  }

  lemma AdvanceHelps(s: State)
    requires InStop(s) && ControlOk(s) && s.control != Free && Helpful(s) == Advance(true)
    ensures PartsLeft(Apply(s, Advance(true)).control) < PartsLeft(s.control)
  {
    assert Apply(s, Advance(true)) == AdvanceStep(s, true);
    if s.control.Stopping? {
      if IsNotifierStage(s.control.stage) {
        NotifierStageHelps(s);
      } else {
        MonitorStageHelps(s);
      }
    }
  }

  lemma HelpfulHelps(s: State)
    requires InStop(s) && Inv(s) && s.control != Free
    ensures var t := Apply(s, Helpful(s));
            || PartsLeft(t.control) < PartsLeft(s.control)
            || (t.control == s.control && ThreadLeft(t) < ThreadLeft(s))
  {
    if Helpful(s) == Advance(true) {
      AdvanceHelps(s);
    } else if s.control.stage == JoinNotifier {
      JoiningNotifierHelps(s);
    } else {
      JoiningMonitorHelps(s);
    }
  }

  lemma HelpfulGoesOn(s: State)
    requires InStop(s) && Inv(s) && Healthy(s) && s.control != Free
    ensures var t := Apply(s, Helpful(s)); InStop(t) && Inv(t) && Healthy(t)
  {
    StepStaysInStop(s, Helpful(s));
    StepKeepsInv(s, Helpful(s));
    StepKeepsHealthy(s, Helpful(s));
  }

  lemma CallGoesOn(s: State, steps: seq<Step>, step: Step)
    requires OneCall(s, steps) && Exec(s, steps).control != Free
    ensures OneCall(s, steps + [step]) && Exec(s, steps + [step]) == Apply(Exec(s, steps), step)
  {
    assert (steps + [step])[..|steps|] == steps;
  }

  lemma {:induction false} FinishFrom(s: State, done: seq<Step>, t: State) returns (all: seq<Step>)
    requires OneCall(s, done) && t == Exec(s, done) && InStop(t) && Inv(t) && Healthy(t)
    ensures OneCall(s, all) && InStop(Exec(s, all)) && Healthy(Exec(s, all)) && Exec(s, all).control == Free
    decreases PartsLeft(t.control), ThreadLeft(t)
  {
    if t.control == Free {
      all := done;
    } else {
      HelpfulHelps(t);
      HelpfulGoesOn(t);
      CallGoesOn(s, done, Helpful(t));
      all := FinishFrom(s, done + [Helpful(t)], Apply(t, Helpful(t)));
    }
  }

  /** From every reachable Running state that is not stuck, a Stop can end in Ready:
      no state of the threads and of the queue is a dead end for it. */
  lemma {:induction false} StopCanSucceed(before: seq<Step>)
    requires Exec(START, before).life == Running && !SomeWaitFailed(before)
    ensures exists during :: OneCall(Exec(START, before + [CallStop]), during)
                             && Exec(START, before + [CallStop] + during).life == Ready
  {
    var s := Exec(START, before + [CallStop]);
    RunKeepsInv(before);
    RunKeepsInv(before + [CallStop]);
    RunIsHealthyOrStuck(before);
    CallIsInStop(Exec(START, before));
    StepKeepsHealthy(Exec(START, before), CallStop);
    assert (before + [CallStop])[..|before|] == before;
    var during := FinishFrom(s, [], s);
    ExecConcat(START, before + [CallStop], during);
  }

  // ------------------------------------------------------------------ a stuck run

  /** An Init, a Start and a Stop whose one failure is the wait for the daemon, three
      steps at a time. */
  function StuckRun(k: nat): seq<Step> {
    if k == 0 then [] else StuckRun(k - 1) + StuckPart(k - 1)
  }

  function StuckPart(k: nat): seq<Step> {
    match k
    case 0 => [CallInit, Advance(true), Advance(true)]
    case 1 => [CallStart, Advance(true), Advance(true)]
    case 2 => [Advance(true), Advance(true), Advance(true)]
    case 3 => [CallStop, Advance(true), Advance(true)]
    case 4 => [Advance(true), NotifierGet, Advance(true)]
    case 5 => [Advance(true), Advance(true), Advance(true)]
    case 6 => [MonitorExit, Advance(true), Advance(true)]
    case _ => [Advance(false), Advance(true), Advance(true)]
  }

  /** The state after `k` parts. */
  function StuckState(k: nat): State {
    var ready := START.(life := Ready);
    var running := ready.(life := Running, flag := true, notifierId := true, monitorId := true,
                          monitor := Polling, notifier := Waiting);
    var stopping := running.(life := Lock, notifier := NotifierGone);
    match k
    case 0 => START
    case 1 => ready
    case 2 => ready.(life := Lock, flag := true, control := CreatingMonitor)
    case 3 => running
    case 4 => running.(life := Lock, control := Stopping(AppendPost, true, false))
    case 5 => stopping.(control := Stopping(ForgetNotifier, true, false))
    case 6 => stopping.(control := Stopping(JoinMonitor, true, false), notifierId := false, finRequested := true)
    case 7 =>
      stopping.(control := Stopping(WaitDaemon, true, false), notifierId := false, monitorId := false,
                monitor := MonitorGone(false))
    case _ =>
      stopping.(life := Running, flag := false, notifierId := false, monitorId := false,
                monitor := MonitorGone(false))
  }

  lemma ExecSnoc(s: State, steps: seq<Step>, step: Step)
    ensures Exec(s, steps + [step]) == Apply(Exec(s, steps), step)
  {
    assert (steps + [step])[..|steps|] == steps;
  }

  lemma ExecThree(s: State, a: Step, b: Step, c: Step)
    ensures Exec(s, [a, b, c]) == Apply(Apply(Apply(s, a), b), c)
  {
    ExecSnoc(s, [], a);
    ExecSnoc(s, [a], b);
    ExecSnoc(s, [a, b], c);
    assert [] + [a] == [a] && [a] + [b] == [a, b] && [a, b] + [c] == [a, b, c];
  }

  lemma StuckStarting(k: nat)
    requires k < 3
    ensures var p := StuckPart(k);
            Apply(Apply(Apply(StuckState(k), p[0]), p[1]), p[2]) == StuckState(k + 1)
  {
  }

  lemma StuckStopping()
    ensures var p := StuckPart(3);
            Apply(Apply(Apply(StuckState(3), p[0]), p[1]), p[2]) == StuckState(4)
  {
  }

  lemma StuckAsking()
    ensures var p := StuckPart(4);
            Apply(Apply(Apply(StuckState(4), p[0]), p[1]), p[2]) == StuckState(5)
  {
  }

  lemma StuckJoining()
    ensures var p := StuckPart(5);
            Apply(Apply(Apply(StuckState(5), p[0]), p[1]), p[2]) == StuckState(6)
  {
  }

  lemma StuckLosing()
    ensures var p := StuckPart(6);
            Apply(Apply(Apply(StuckState(6), p[0]), p[1]), p[2]) == StuckState(7)
  {
  }

  lemma WaitedInVain(s: State)
    requires s.control == Stopping(WaitDaemon, true, false)
    ensures Apply(s, Advance(false)) == s.(control := Stopping(Lower, false, false))
  {
  }

  lemma Lowered(s: State)
    requires s.control == Stopping(Lower, false, false)
    ensures Apply(s, Advance(true)) == s.(flag := false, control := Settling(Running))
  {
  }

  lemma Settled(s: State)
    requires s.control == Settling(Running)
    ensures Apply(s, Advance(true)) == s.(life := Running, control := Free)
  {
  }

  lemma DaemonLost(s: State)
    requires s.control == Stopping(WaitDaemon, true, false)
    ensures Exec(s, [Advance(false), Advance(true), Advance(true)])
         == s.(flag := false, life := Running, control := Free)
  {
    ExecThree(s, Advance(false), Advance(true), Advance(true));
    WaitedInVain(s);
    Lowered(s.(control := Stopping(Lower, false, false)));
    Settled(s.(flag := false, control := Settling(Running)));
  }

  lemma StuckPartLeads(k: nat)
    requires k < 8
    ensures Exec(StuckState(k), StuckPart(k)) == StuckState(k + 1)
  {
    if k == 7 {
      DaemonLost(StuckState(7));
    } else {
      var p := StuckPart(k);
      ExecThree(StuckState(k), p[0], p[1], p[2]);
      match k
      case 3 => StuckStopping();
      case 4 => StuckAsking();
      case 5 => StuckJoining();
      case 6 => StuckLosing();
      case _ => StuckStarting(k);
    }
  }

  lemma {:induction false} StuckStates(k: nat)
    requires k <= 8
    ensures Exec(START, StuckRun(k)) == StuckState(k)
  {
    if k != 0 {
      StuckStates(k - 1);
      ExecConcat(START, StuckRun(k - 1), StuckPart(k - 1));
      StuckPartLeads(k - 1);
    }
  }

  /** The state is Running again, without any thread, and stuck: another Stop may do
      what it likes. */
  lemma {:induction false} SomeRunGetsStuck(during: seq<Step>)
    ensures var s := Exec(START, StuckRun(8)); s.control == Free && s.life == Running && Stuck(s)
    ensures OneCall(Exec(START, StuckRun(8) + [CallStop]), during)
            && Exec(START, StuckRun(8) + [CallStop] + during).control == Free
            ==> Exec(START, StuckRun(8) + [CallStop] + during).life == Running
  {
    StuckStates(8);
    WhenStuck(StuckRun(8));
    if OneCall(Exec(START, StuckRun(8) + [CallStop]), during)
       && Exec(START, StuckRun(8) + [CallStop] + during).control == Free {
      StopOutcome(StuckRun(8), during);
      FailuresAreForever(StuckRun(8), [CallStop]);
      FailuresAreForever(StuckRun(8) + [CallStop], during);
    }
  }
}

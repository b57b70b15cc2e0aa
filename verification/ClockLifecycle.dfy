/**
 The clock manager's states Idle, Ready and Running, the transition state Lock, and
 the monitor and notifier threads of a Start-Stop cycle.

 Whoever moves the state to Lock runs Init, Deinit, Start or Stop alone; each of its
 steps can interleave with steps of the two threads.  Posting a notification tests
 the notifier's thread id twice, in separate critical sections.
 */
module ClockLifecycle {
  import opened Common
  import opened NotificationQueue

  datatype Life = Idle | Ready | Running | Lock

  /** The parts of stopping. */
  datatype Stage =
    | ReadId | CheckPost | AppendPost | JoinNotifier | ForgetNotifier | DeleteAll
    | AskMonitor | JoinMonitor | ForgetMonitor | WaitDaemon | Lower

  /** The thread in charge.  `ok`: nothing has failed so far; `starting`: it stops
      what a failing Start has started. */
  datatype Control =
    | Free
    | Initializing
    | Deinitializing
    | Marking
    | Launching
    | CreatingMonitor
    | CreatingNotifier
    | Stopping(stage: Stage, ok: bool, starting: bool)
    | Failing
    | Settling(life: Life)

  /** `posted`: it has posted the completion of the synchronization. */
  datatype Monitor = NoMonitor | Polling | PostChecked | Posted | MonitorGone(posted: bool)

  datatype Notifier = NoNotifier | Waiting | Saving | Calling | Completing | NotifierGone

  /** What happened for the user in a cycle. */
  datatype Event = Saved | Called

  datatype State = State(
    life: Life,
    control: Control,
    flag: bool,              // the barrier that keeps parameter writers out
    notifierId: bool,        // the thread id is valid
    monitorId: bool,
    finRequested: bool,
    queue: seq<Notice>,
    callback: bool,          // a callback is registered
    monitor: Monitor,
    notifier: Notifier,
    events: seq<Event>)      // history: since the last Start

  datatype Step =
    | CallInit
    | CallDeinit
    | CallStart
    | CallStop
    | SetCallback(on: bool)
    | Advance(ok: bool)      // the thread in charge; `ok`: the call it makes succeeds
    | MonitorCheck
    | MonitorAppend
    | MonitorExit
    | NotifierGet
    | NotifierSave
    | NotifierCall
    | NotifierComplete

  const START: State :=
    State(Idle, Free, false, false, false, false, [], false, NoMonitor, NoNotifier, [])

  const COMPLETE := Notice(NtpSyncComplete, true)
  const FIN := Notice(FinReq, false)

  predicate HasPosted(m: Monitor) {
    m == Posted || (m.MonitorGone? && m.posted)
  }

  predicate MonitorAlive(m: Monitor) {
    m == Polling || m == PostChecked || m == Posted
  }

  predicate NotifierAlive(n: Notifier) {
    n == Waiting || n == Saving || n == Calling || n == Completing
  }

  predicate Enabled(s: State, step: Step) {
    match step
    case CallInit => s.life == Idle
    case CallDeinit => s.life == Ready
    case CallStart => s.life == Ready
    case CallStop => s.life == Running
    case SetCallback(_) => s.life == Ready || s.life == Running
    case Advance(_) =>
      && s.control != Free
      && (s.control.Stopping? && s.control.stage == JoinNotifier ==> !NotifierAlive(s.notifier))
      && (s.control.Stopping? && s.control.stage == JoinMonitor && s.monitorId ==> !MonitorAlive(s.monitor))
    case MonitorCheck => s.monitor == Polling
    case MonitorAppend => s.monitor == PostChecked
    case MonitorExit => (s.monitor == Polling || s.monitor == Posted) && s.finRequested
    case NotifierGet => s.notifier == Waiting && s.queue != []
    case NotifierSave => s.notifier == Saving
    case NotifierCall => s.notifier == Calling
    case NotifierComplete => s.notifier == Completing
  }

  function Goto(s: State, stage: Stage): State
    requires s.control.Stopping?
  {
    s.(control := Stopping(stage, s.control.ok, s.control.starting))
  }

  predicate IsNotifierStage(stage: Stage) {
    stage == ReadId || stage == CheckPost || stage == AppendPost || stage == JoinNotifier
    || stage == ForgetNotifier || stage == DeleteAll
  }

  /** Asks the notifier to finish and joins it. */
  function DestroyNotifier(s: State): State
    requires s.control.Stopping? && IsNotifierStage(s.control.stage)
  {
    match s.control.stage
    case ReadId => Goto(s, if s.notifierId then CheckPost else AskMonitor)
    case CheckPost => Goto(s, if s.notifierId then AppendPost else AskMonitor)
    case AppendPost =>
      if s.notifierId then Goto(s, JoinNotifier).(queue := s.queue + [FIN]) else Goto(s, AskMonitor)
    case JoinNotifier => Goto(s, ForgetNotifier)
    case ForgetNotifier => Goto(s, DeleteAll).(notifierId := false)
    case DeleteAll => Goto(s, AskMonitor).(queue := [])
  }

  /** Joins the monitor, waits for the daemon and lowers the barrier.  Joining a
      thread id that is not valid fails. */
  function DestroyMonitor(s: State, ok: bool): State
    requires s.control.Stopping? && !IsNotifierStage(s.control.stage)
  {
    match s.control.stage
    case AskMonitor => Goto(s, JoinMonitor).(finRequested := true)
    case JoinMonitor =>
      if s.monitorId then Goto(s, ForgetMonitor) else s.(control := Stopping(WaitDaemon, false, s.control.starting))
    case ForgetMonitor => Goto(s, WaitDaemon).(monitorId := false, finRequested := false)
    case WaitDaemon => s.(control := Stopping(Lower, s.control.ok && ok, s.control.starting))
    case Lower =>
      s.(flag := false,
         control := if s.control.starting then Failing else Settling(if s.control.ok then Ready else Running))
  }

  /** StopInternal: the notifier, the monitor, the daemon, then the barrier. */
  function StopStep(s: State, ok: bool): State
    requires s.control.Stopping?
  {
    if IsNotifierStage(s.control.stage) then DestroyNotifier(s) else DestroyMonitor(s, ok)
  }

  function AdvanceStep(s: State, ok: bool): State
    requires s.control != Free
  {
    match s.control
    case Initializing => s.(flag := false, control := Settling(if ok then Ready else Idle))
    case Deinitializing => s.(control := Settling(Idle))
    case Marking => s.(flag := true, control := Launching)
    case Launching =>
      // The parameters are read and the daemon is started; a daemon that does not
      // start stops everything first.
      s.(control := if ok then CreatingMonitor else Stopping(ReadId, true, true))
    case CreatingMonitor =>
      if s.monitorId || !ok then s.(control := Failing)
      else s.(monitorId := true, finRequested := false, monitor := Polling, control := CreatingNotifier)
    case CreatingNotifier =>
      if s.notifierId || !ok then s.(control := Stopping(ReadId, true, true))
      else s.(notifierId := true, notifier := Waiting, control := Settling(Running))
    case Stopping(_, _, _) => StopStep(s, ok)
    case Failing => s.(flag := false, control := Settling(Ready))
    case Settling(life) => s.(life := life, control := Free)
  }

  /** Takes the head of the queue and starts to process it. */
  function GetStep(s: State): State
    requires s.queue != []
  {
    var notice, t := s.queue[0], s.(queue := s.queue[1..]);
    match notice.kind
    case FinReq => t.(notifier := NotifierGone)
    case NtpSyncComplete =>
      if !s.callback then t else t.(notifier := if notice.additional then Saving else Calling)
    case Nothing => t
  }

  function Apply(s: State, step: Step): State {
    if !Enabled(s, step) then s else
    match step
    case CallInit => s.(life := Lock, control := Initializing)
    case CallDeinit => s.(life := Lock, control := Deinitializing)
    case CallStart => s.(life := Lock, control := Marking, events := [])
    case CallStop => s.(life := Lock, control := Stopping(ReadId, true, false))
    case SetCallback(on) => s.(callback := on)
    case Advance(ok) => AdvanceStep(s, ok)
    case MonitorCheck => s.(monitor := if s.notifierId then PostChecked else Polling)
    case MonitorAppend =>
      if s.notifierId then s.(queue := s.queue + [COMPLETE], monitor := Posted) else s.(monitor := Polling)
    case MonitorExit => s.(monitor := MonitorGone(s.monitor == Posted))
    case NotifierGet => GetStep(s)
    case NotifierSave => s.(events := s.events + [Saved], notifier := Calling)
    case NotifierCall => s.(events := s.events + [Called], notifier := Completing)
    case NotifierComplete => s.(flag := false, notifier := Waiting)
  }

  function Exec(s: State, steps: seq<Step>): State
    decreases |steps|
  {
    if steps == [] then s else Apply(Exec(s, steps[..|steps| - 1]), steps[|steps| - 1])
  }

  // ---------------------------------------------------------------- invariants

  /** No thread, no thread id, nothing queued. */
  ghost predicate Quiet(s: State) {
    && !s.notifierId && !s.monitorId && s.queue == []
    && !MonitorAlive(s.monitor) && !NotifierAlive(s.notifier)
  }

  /** The notifier has been dealt with. */
  ghost predicate NotifierDone(s: State) {
    !s.notifierId && !NotifierAlive(s.notifier) && s.queue == []
  }

  /** Thread ids are valid exactly for threads that run or have yet to be joined. */
  ghost predicate IdsMatch(s: State) {
    var stage := if s.control.Stopping? then s.control.stage else ReadId;
    && (MonitorAlive(s.monitor) ==> s.monitorId)
    && (NotifierAlive(s.notifier) ==> s.notifierId)
    && (s.notifierId && !NotifierAlive(s.notifier) ==> stage == JoinNotifier || stage == ForgetNotifier)
    && (s.queue != [] ==> s.notifierId || stage == DeleteAll)
  }

  /** What is known at each point of the thread in charge. */
  ghost predicate ControlOk(s: State) {
    match s.control
    case Free => (s.life == Running || (Quiet(s) && !s.flag)) && s.life != Lock
    case Initializing => s.life == Lock && Quiet(s) && !s.flag
    case Deinitializing => s.life == Lock && Quiet(s) && !s.flag
    case Marking => s.life == Lock && Quiet(s) && !s.flag && s.events == []
    case Launching => s.life == Lock && Quiet(s) && s.events == []
    case CreatingMonitor => s.life == Lock && Quiet(s) && s.events == []
    case CreatingNotifier => s.life == Lock && NotifierDone(s)
    case Failing => s.life == Lock && Quiet(s)
    case Settling(life) => s.life == Lock && life != Lock && (life == Running || (Quiet(s) && !s.flag))
    case Stopping(stage, _, _) =>
      && s.life == Lock
      && match stage
         case ReadId => true
         case CheckPost => s.notifierId
         case AppendPost => s.notifierId
         case JoinNotifier => s.notifierId
         case ForgetNotifier => s.notifierId && !NotifierAlive(s.notifier)
         case DeleteAll => !s.notifierId && !NotifierAlive(s.notifier)
         case AskMonitor => NotifierDone(s)
         case JoinMonitor => NotifierDone(s) && s.finRequested
         case ForgetMonitor => NotifierDone(s) && !MonitorAlive(s.monitor)
         case WaitDaemon => Quiet(s)
         case Lower => Quiet(s)
  }

  function Count(queue: seq<Notice>, kind: Kind): nat {
    if queue == [] then 0
    else Count(queue[..|queue| - 1], kind) + if queue[|queue| - 1].kind == kind then 1 else 0
  }

  /** A request to finish is on its way exactly while the thread in charge joins a
      notifier that still runs. */
  ghost predicate FinOnTime(s: State) {
    Count(s.queue, FinReq)
    == if s.control.Stopping? && s.control.stage == JoinNotifier && NotifierAlive(s.notifier) then 1 else 0
  }

  /** One completion at most is on its way or done with, once the monitor has posted
      it; the notifier's place tells what the user has seen. */
  ghost predicate OncePerCycle(s: State) {
    && (forall i :: 0 <= i < |s.queue| && s.queue[i].kind == NtpSyncComplete ==> s.queue[i].additional)
    && Count(s.queue, NtpSyncComplete) + (if s.notifier == Saving || s.notifier == Calling then 1 else 0)
       + (if Called in s.events then 1 else 0) <= (if HasPosted(s.monitor) then 1 else 0)
    && (match s.notifier
        case Saving => s.events == []
        case Calling => s.events == [Saved]
        case _ => s.events == [] || s.events == [Saved, Called])
  }

  ghost predicate Threads(s: State) {
    IdsMatch(s) && ControlOk(s) && FinOnTime(s)
  }

  ghost predicate Inv(s: State) {
    Threads(s) && OncePerCycle(s)
  }

  lemma CountAppend(queue: seq<Notice>, notice: Notice, kind: Kind)
    ensures Count(queue + [notice], kind) == Count(queue, kind) + if notice.kind == kind then 1 else 0
  {
    assert (queue + [notice])[..|queue|] == queue;
  }

  lemma {:induction false} CountTail(queue: seq<Notice>, kind: Kind)
    requires queue != []
    ensures Count(queue, kind) == Count(queue[1..], kind) + if queue[0].kind == kind then 1 else 0
    decreases |queue|
  {
    if |queue| > 1 {
      CountTail(queue[..|queue| - 1], kind);
      assert queue[..|queue| - 1][1..] == queue[1..][..|queue| - 2];
    } else {
      assert queue[..0] == [] && queue[1..] == [];
    }
  }

  predicate IsCall(step: Step) {
    step.CallInit? || step.CallDeinit? || step.CallStart? || step.CallStop? || step.SetCallback?
  }

  predicate IsMonitorStep(step: Step) {
    step.MonitorCheck? || step.MonitorAppend? || step.MonitorExit?
  }

  lemma CallKeepsInv(s: State, step: Step)
    requires Inv(s) && Enabled(s, step) && IsCall(step)
    ensures Inv(Apply(s, step))
  {
  }

  lemma PostKeepsThreads(s: State)
    requires Threads(s) && s.monitor == PostChecked && s.notifierId
    ensures Threads(s.(queue := s.queue + [COMPLETE], monitor := Posted))
  {
    CountAppend(s.queue, COMPLETE, FinReq);
  }

  lemma MonitorKeepsThreads(s: State, step: Step)
    requires Threads(s) && Enabled(s, step) && IsMonitorStep(step)
    ensures Threads(Apply(s, step))
  {
    if step.MonitorAppend? && s.notifierId {
      PostKeepsThreads(s);
    }
  }

  lemma MonitorKeepsOnce(s: State, step: Step)
    requires OncePerCycle(s) && Enabled(s, step) && IsMonitorStep(step)
    ensures OncePerCycle(Apply(s, step))
  {
    CountAppend(s.queue, COMPLETE, NtpSyncComplete);
  }

  lemma FinIsExpected(s: State)
    requires FinOnTime(s) && s.queue != [] && s.queue[0].kind == FinReq
    ensures s.control.Stopping? && s.control.stage == JoinNotifier && Count(s.queue[1..], FinReq) == 0
  {
    CountTail(s.queue, FinReq);
  }

  /** Taking a notification from the queue: the thread in charge can tell only when
      it joins the notifier. */
  lemma TakingKeepsControl(s: State, notifier: Notifier)
    requires Threads(s) && s.notifier == Waiting && s.queue != []
    requires if s.queue[0].kind == FinReq then notifier == NotifierGone else NotifierAlive(notifier)
    ensures var t := s.(queue := s.queue[1..], notifier := notifier); IdsMatch(t) && ControlOk(t)
  {
    if !NotifierAlive(notifier) {
      FinIsExpected(s);
    }
  }

  lemma TakingKeepsFinOnTime(s: State, notifier: Notifier)
    requires Threads(s) && s.notifier == Waiting && s.queue != []
    requires if s.queue[0].kind == FinReq then notifier == NotifierGone else NotifierAlive(notifier)
    ensures FinOnTime(s.(queue := s.queue[1..], notifier := notifier))
  {
    CountTail(s.queue, FinReq);
  }

  lemma GetTakes(s: State)
    requires s.notifier == Waiting && s.queue != []
    ensures var t := GetStep(s);
            && t == s.(queue := s.queue[1..], notifier := t.notifier)
            && (if s.queue[0].kind == FinReq then t.notifier == NotifierGone else NotifierAlive(t.notifier))
  {
  }

  lemma GetKeepsThreads(s: State)
    requires Threads(s) && s.notifier == Waiting && s.queue != []
    ensures Threads(GetStep(s))
  {
    GetTakes(s);
    TakingKeepsControl(s, GetStep(s).notifier);
    TakingKeepsFinOnTime(s, GetStep(s).notifier);
  }

  lemma GetKeepsOnce(s: State)
    requires OncePerCycle(s) && s.notifier == Waiting && s.queue != []
    ensures OncePerCycle(GetStep(s))
  {
    CountTail(s.queue, NtpSyncComplete);
  }

  lemma NotifierKeepsInv(s: State, step: Step)
    requires Inv(s) && Enabled(s, step)
    requires step.NotifierSave? || step.NotifierCall? || step.NotifierComplete?
    ensures Inv(Apply(s, step))
  {
  }

  lemma AskingKeepsThreads(s: State)
    requires Threads(s) && s.control.Stopping?
    requires s.control.stage == ReadId || s.control.stage == CheckPost
    ensures Threads(DestroyNotifier(s))
  {
  }

  lemma AppendKeepsThreads(s: State)
    requires Threads(s) && s.control.Stopping? && s.control.stage == AppendPost
    ensures Threads(DestroyNotifier(s))
  {
    CountAppend(s.queue, FIN, FinReq);
  }

  lemma JoinedKeepsThreads(s: State)
    requires Threads(s) && s.control.Stopping? && IsNotifierStage(s.control.stage) && !NotifierAlive(s.notifier)
    requires s.control.stage == JoinNotifier || s.control.stage == ForgetNotifier || s.control.stage == DeleteAll
    ensures Threads(DestroyNotifier(s))
  {
  }

  lemma NotifierStageKeepsThreads(s: State)
    requires Threads(s) && s.control.Stopping? && IsNotifierStage(s.control.stage)
    requires s.control.stage == JoinNotifier ==> !NotifierAlive(s.notifier)
    ensures Threads(DestroyNotifier(s))
  {
    match s.control.stage
    case ReadId => AskingKeepsThreads(s);
    case CheckPost => AskingKeepsThreads(s);
    case AppendPost => AppendKeepsThreads(s);
    case _ => JoinedKeepsThreads(s);
  }

  lemma JoinMonitorKeepsThreads(s: State, ok: bool)
    requires Threads(s) && s.control.Stopping?
    requires s.control.stage == AskMonitor || s.control.stage == JoinMonitor
    requires s.control.stage == JoinMonitor && s.monitorId ==> !MonitorAlive(s.monitor)
    ensures Threads(DestroyMonitor(s, ok))
  {
  }

  lemma ForgetMonitorKeepsThreads(s: State, ok: bool)
    requires Threads(s) && s.control.Stopping? && s.control.stage == ForgetMonitor
    ensures Threads(DestroyMonitor(s, ok))
  {
  }

  lemma DaemonKeepsThreads(s: State, ok: bool)
    requires Threads(s) && s.control.Stopping? && (s.control.stage == WaitDaemon || s.control.stage == Lower)
    ensures Threads(DestroyMonitor(s, ok))
  {
  }

  lemma MonitorStageKeepsThreads(s: State, ok: bool)
    requires Threads(s) && s.control.Stopping? && !IsNotifierStage(s.control.stage)
    requires s.control.stage == JoinMonitor && s.monitorId ==> !MonitorAlive(s.monitor)
    ensures Threads(DestroyMonitor(s, ok))
  {
    match s.control.stage
    case AskMonitor => JoinMonitorKeepsThreads(s, ok);
    case JoinMonitor => JoinMonitorKeepsThreads(s, ok);
    case ForgetMonitor => ForgetMonitorKeepsThreads(s, ok);
    case _ => DaemonKeepsThreads(s, ok);
  }

  lemma DestroyNotifierSparesThreads(s: State)
    requires s.control.Stopping? && IsNotifierStage(s.control.stage)
    ensures var t := DestroyNotifier(s);
            && t.monitor == s.monitor && t.notifier == s.notifier && t.events == s.events
            && (t.queue == s.queue || t.queue == [] || t.queue == s.queue + [FIN])
  {
  }

  lemma JoiningSparesThreads(s: State, ok: bool)
    requires s.control.Stopping? && (s.control.stage == AskMonitor || s.control.stage == JoinMonitor)
    ensures var t := DestroyMonitor(s, ok);
            t.monitor == s.monitor && t.notifier == s.notifier && t.events == s.events && t.queue == s.queue
  {
  }

  lemma DestroyMonitorSparesThreads(s: State, ok: bool)
    requires s.control.Stopping? && !IsNotifierStage(s.control.stage)
    ensures var t := DestroyMonitor(s, ok);
            t.monitor == s.monitor && t.notifier == s.notifier && t.events == s.events && t.queue == s.queue
  {
    if s.control.stage == AskMonitor || s.control.stage == JoinMonitor {
      JoiningSparesThreads(s, ok);
    }
  }

  lemma OnceFrame(s: State, t: State)
    requires OncePerCycle(s) && t.monitor == s.monitor && t.notifier == s.notifier && t.events == s.events
    requires t.queue == s.queue || t.queue == [] || t.queue == s.queue + [FIN]
    ensures OncePerCycle(t)
  {
    CountAppend(s.queue, FIN, NtpSyncComplete);
  }

  lemma StopKeepsInv(s: State, ok: bool)
    requires Inv(s) && Enabled(s, Advance(ok)) && s.control.Stopping?
    ensures Inv(StopStep(s, ok))
  {
    if IsNotifierStage(s.control.stage) {
      NotifierStageKeepsThreads(s);
      DestroyNotifierSparesThreads(s);
    } else {
      MonitorStageKeepsThreads(s, ok);
      DestroyMonitorSparesThreads(s, ok);
    }
    OnceFrame(s, StopStep(s, ok));
  }

  lemma AdvanceKeepsThreads(s: State, ok: bool)
    requires Threads(s) && s.control != Free && !s.control.Stopping?
    ensures Threads(AdvanceStep(s, ok))
  {
  }

  lemma AdvanceKeepsOnce(s: State, ok: bool)
    requires Inv(s) && s.control != Free && !s.control.Stopping?
    ensures OncePerCycle(AdvanceStep(s, ok))
  {
  }

  lemma StepKeepsInv(s: State, step: Step)
    requires Inv(s)
    ensures Inv(Apply(s, step))
  {
    if Enabled(s, step) {
      if IsCall(step) {
        CallKeepsInv(s, step);
      } else if IsMonitorStep(step) {
        MonitorKeepsThreads(s, step);
        MonitorKeepsOnce(s, step);
      } else if step.Advance? {
        if s.control.Stopping? {
          StopKeepsInv(s, step.ok);
        } else {
          AdvanceKeepsThreads(s, step.ok);
          AdvanceKeepsOnce(s, step.ok);
        }
      } else if step.NotifierGet? {
        GetKeepsThreads(s);
        GetKeepsOnce(s);
      } else {
        NotifierKeepsInv(s, step);
      }
    }
  }

  lemma {:induction false} RunKeepsInv(steps: seq<Step>)
    ensures Inv(Exec(START, steps))
    decreases |steps|
  {
    if steps != [] {
      RunKeepsInv(steps[..|steps| - 1]);
      StepKeepsInv(Exec(START, steps[..|steps| - 1]), steps[|steps| - 1]);
    }
  }

  /** In Idle and Ready, in every run, the barrier is down, no thread runs and no
      notification is left from an earlier cycle. */
  lemma RestingIsClean(steps: seq<Step>)
    requires Exec(START, steps).life == Idle || Exec(START, steps).life == Ready
    ensures var s := Exec(START, steps); !s.flag && Quiet(s)
  {
    RunKeepsInv(steps);
  }

  predicate IsDeleting(s: State) {
    s.control.Stopping? && s.control.stage == DeleteAll
  }

  lemma StopPostsOnlyToTheLiving(s: State)
    requires s.control.Stopping? && !s.notifierId && IsNotifierStage(s.control.stage)
    ensures |DestroyNotifier(s).queue| <= |s.queue|
  {
  }

  lemma DeadNotifierGetsNothing(s: State, step: Step)
    requires !s.notifierId
    ensures |Apply(s, step).queue| <= |s.queue|
  {
    if step.Advance? && s.control.Stopping? {
      if IsNotifierStage(s.control.stage) {
        StopPostsOnlyToTheLiving(s);
      } else {
        DestroyMonitorSparesThreads(s, step.ok);
      }
    }
  }

  /** Once the notifier's id is not valid nothing is appended, and after its
      notifications have been deleted the queue is empty, although the monitor may
      still be about to post. */
  lemma {:induction false} NothingIsPostedToADeadNotifier(steps: seq<Step>, step: Step)
    requires !Exec(START, steps).notifierId
    ensures |Exec(START, steps + [step]).queue| <= |Exec(START, steps).queue|
    ensures !IsDeleting(Exec(START, steps)) ==> Exec(START, steps).queue == []
  {
    RunKeepsInv(steps);
    DeadNotifierGetsNothing(Exec(START, steps), step);
    assert (steps + [step])[..|steps|] == steps;
  }

  /** From one Start to the next the callback runs at most once, and only after the
      parameters were saved. */
  lemma {:induction false} CallbackRunsOnceAfterSave(steps: seq<Step>)
    ensures Exec(START, steps).events <= [Saved, Called]
  {
    RunKeepsInv(steps);
  }
}

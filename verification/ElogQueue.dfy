/**
 The event-log queue as an interleaved transition system.

 Callers send messages, the ELOG thread handles one command at a time and may post
 one command to itself while it does, and one closing thread posts the destroy
 command.  Counting a command in or out (under the mutex) and handing it to or
 taking it from the message queue are separate steps, and handing over may fail.
 */
module ElogQueue {
  import opened Common
  import opened ElogSave

  const QUEUE_NUM: nat := 10
  const REGISTER_MSG_MAX: nat := 1
  const DESTROY_MSG_MAX: nat := 1
  const QUEUE_SIZE: nat := QUEUE_NUM + REGISTER_MSG_MAX + DESTROY_MSG_MAX

  /** A serialized event. */
  datatype Message = Message(json: string)

  /** A heap string; its address is the number of its allocation. */
  datatype Str = Str(addr: nat, text: Message)

  datatype Cmd = Send(str: Str) | Resend(str: Str) | Register | Wait | Destroy

  /** A caller that has been counted in and still has to hand its string over. */
  datatype Sender = Sender(str: Str, failed: bool)

  /** Where the ELOG thread is. */
  datatype Pc =
    | Receiving
    | Received(cmd: Cmd)
    | Handling(cmd: Cmd)          // counted out
    | Forcing(cmd: Cmd)           // about to post a command to itself
    | ForcePushing(cmd: Cmd)
    | ForceUndoing(cmd: Cmd)
    | Processing                  // inside SYS_process_event
    | Resending(str: Str)         // a callback is about to post a saved message
    | ResendPushing(str: Str)
    | ResendUndoing(str: Str)
    | Exited

  /** The thread that closes the log manager. */
  datatype Closer = Open | DestroyPushing | DestroyUndoing | Joining | Draining

  /** Why an accepted message is no longer held. */
  datatype Reason = Delivered | TelemetryRefused | UnexpectedReason | SaveFull | ResendRefused | Closed | NeverFreed

  datatype Retired = Retired(text: Message, reason: Reason)

  datatype State = State(
    cnt: int,
    queue: seq<Cmd>,
    senders: seq<Sender>,
    pc: Pc,
    client: bool,
    registerRequested: bool,
    inflight: seq<Str>,           // telemetry the agent has accepted
    saved: seq<Str>,
    closer: Closer,
    cleared: nat,                 // commands taken by the closing thread
    // history
    allocations: nat,             // strings allocated so far
    freed: seq<Str>,
    leaked: seq<Str>,
    accepted: seq<Message>,
    retired: seq<Retired>)

  datatype Step =
    // callers
    | SendElog(text: Message)
    | Push(i: nat)
    | PushFails(i: nat)
    | UndoSend(i: nat)
    // the ELOG thread
    | Receive(i: nat)
    | CountOut
    | HandleRegister(ok: bool)
    | HandleWait(connected: bool)
    | HandleMessage(connected: bool, taken: bool)
    | HandleDestroy
    | Force
    | ForcePush
    | ForcePushFails
    | ForceUndo
    | TelemetryFinished(i: nat)
    | TelemetryError(i: nat)
    | TelemetryUnexpected(i: nat)
    | AdmitResend
    | ResendPush
    | ResendPushFails
    | ResendUndo
    | LeaveProcessing
    // the closing thread
    | PostDestroy
    | DestroyPush
    | DestroyPushFails
    | DestroyUndo
    | ClearSaved
    | DrainOne(i: nat)

  const START: State :=
    State(0, [], [], Receiving, false, false, [], [], Open, 0, 0, [], [], [], [])

  function Own(cmd: Cmd): seq<Str> {
    match cmd
    case Send(str) => [str]
    case Resend(str) => [str]
    case _ => []
  }

  predicate IsMessage(cmd: Cmd) {
    cmd.Send? || cmd.Resend?
  }

  predicate Enabled(s: State, step: Step) {
    match step
    case SendElog(_) => true
    case Push(i) => i < |s.senders| && !s.senders[i].failed
    case PushFails(i) => i < |s.senders| && !s.senders[i].failed
    case UndoSend(i) => i < |s.senders| && s.senders[i].failed
    case Receive(i) => s.pc == Receiving && i < |s.queue|
    case CountOut => s.pc.Received?
    case HandleRegister(_) => s.pc == Handling(Register)
    case HandleWait(_) => s.pc == Handling(Wait)
    case HandleMessage(_, _) => s.pc.Handling? && IsMessage(s.pc.cmd)
    case HandleDestroy => s.pc == Handling(Destroy)
    case Force => s.pc.Forcing?
    case ForcePush => s.pc.ForcePushing?
    case ForcePushFails => s.pc.ForcePushing?
    case ForceUndo => s.pc.ForceUndoing?
    case TelemetryFinished(i) => s.pc == Processing && i < |s.inflight|
    case TelemetryError(i) => s.pc == Processing && i < |s.inflight|
    case TelemetryUnexpected(i) => s.pc == Processing && i < |s.inflight|
    case AdmitResend => s.pc.Resending?
    case ResendPush => s.pc.ResendPushing?
    case ResendPushFails => s.pc.ResendPushing?
    case ResendUndo => s.pc.ResendUndoing?
    case LeaveProcessing => s.pc == Processing
    case PostDestroy => s.closer == Open
    case DestroyPush => s.closer == DestroyPushing
    case DestroyPushFails => s.closer == DestroyPushing
    case DestroyUndo => s.closer == DestroyUndoing
    case ClearSaved => s.closer == Joining && s.pc == Exited
    case DrainOne(i) => s.closer == Draining && i < |s.queue|
  }

  /** Gives up a string that the state no longer mentions. */
  function Free(s: State, str: Str): State {
    s.(freed := s.freed + [str])
  }

  function Retire(s: State, str: Str, reason: Reason): State {
    s.(freed := s.freed + [str], retired := s.retired + [Retired(str.text, reason)])
  }

  // ------------------------------------------------------------- callers' steps

  /** Admission of a normal command: ten of the twelve places. */
  function SendElogStep(s: State, text: Message): State {
    var str := Str(s.allocations, text);
    var t := s.(allocations := s.allocations + 1);
    if s.cnt < QUEUE_NUM then t.(cnt := s.cnt + 1, senders := s.senders + [Sender(str, false)])
    else Free(t, str)
  }

  function PushStep(s: State, i: nat): State
    requires i < |s.senders|
  {
    var str := s.senders[i].str;
    s.(queue := s.queue + [Send(str)], senders := Without(s.senders, i), accepted := s.accepted + [str.text])
  }

  function UndoSendStep(s: State, i: nat): State
    requires i < |s.senders|
  {
    Free(s.(cnt := s.cnt - 1, senders := Without(s.senders, i)), s.senders[i].str)
  }

  // ------------------------------------------------------------ the ELOG thread

  /** A copy of `str`, which is freed. */
  function Copied(s: State, str: Str): (State, Str) {
    var copy := Str(s.allocations, str.text);
    (s.(allocations := s.allocations + 1, freed := s.freed + [str]), copy)
  }

  /** Saves a copy of a message the thread owns and frees the original. */
  function SaveAndFree(s: State, str: Str): State {
    if |s.saved| < SAVE_NUM then
      var (t, copy) := Copied(s, str);
      t.(saved := Saved(s.saved, copy))
    else Retire(s, str, SaveFull)
  }

  function RegisterStep(s: State, ok: bool): State {
    if s.client then s.(pc := Receiving)
    else s.(client := ok, pc := Forcing(if ok then Wait else Register))
  }

  function WaitStep(s: State, connected: bool): State {
    if !connected then s.(pc := Forcing(Wait))
    else
      var t := s.(registerRequested := false);
      if s.saved == [] then t.(pc := Receiving)
      else
        var (u, copy) := Copied(t, s.saved[0]);
        u.(saved := Loaded(s.saved), pc := Forcing(Resend(copy)))
  }

  function MessageStep(s: State, str: Str, connected: bool, taken: bool): State {
    if s.client && connected then
      if taken then s.(inflight := s.inflight + [str], pc := Processing)
      else Retire(s, str, TelemetryRefused).(pc := Processing)
    else
      SaveAndFree(s, str).(pc := if s.registerRequested then Receiving else Forcing(Register),
                           registerRequested := true)
  }

  /** Admission of a forced command: all twelve places.  A command that is not
      admitted is dropped without an error. */
  function ForceStep(s: State): State
    requires s.pc.Forcing?
  {
    if s.cnt < QUEUE_SIZE then s.(cnt := s.cnt + 1, pc := ForcePushing(s.pc.cmd))
    else s.(pc := Receiving, leaked := s.leaked + Own(s.pc.cmd), retired := s.retired + Lost(s.pc.cmd))
  }

  function Lost(cmd: Cmd): seq<Retired> {
    if IsMessage(cmd) then [Retired(cmd.str.text, NeverFreed)] else []
  }

  /** A forced command that could not be handed over; its string is not freed. */
  function ForceUndoStep(s: State): State
    requires s.pc.ForceUndoing?
  {
    s.(cnt := s.cnt - 1, pc := Receiving, leaked := s.leaked + Own(s.pc.cmd), retired := s.retired + Lost(s.pc.cmd))
  }

  function TelemetryFinishedStep(s: State, i: nat): State
    requires i < |s.inflight|
  {
    var t := Retire(s.(inflight := Without(s.inflight, i)), s.inflight[i], Delivered);
    if s.saved == [] then t
    else
      var (u, copy) := Copied(t, s.saved[0]);
      u.(saved := Loaded(s.saved), pc := Resending(copy))
  }

  function TelemetryErrorStep(s: State, i: nat): State
    requires i < |s.inflight|
  {
    SaveAndFree(s.(inflight := Without(s.inflight, i)), s.inflight[i])
  }

  function TelemetryUnexpectedStep(s: State, i: nat): State
    requires i < |s.inflight|
  {
    Retire(s.(inflight := Without(s.inflight, i)), s.inflight[i], UnexpectedReason)
  }

  function AdmitResendStep(s: State): State
    requires s.pc.Resending?
  {
    if s.cnt < QUEUE_NUM then s.(cnt := s.cnt + 1, pc := ResendPushing(s.pc.str))
    else Retire(s, s.pc.str, ResendRefused).(pc := Processing)
  }

  // -------------------------------------------------------- the closing thread

  function PostDestroyStep(s: State): State {
    if s.cnt < QUEUE_SIZE then s.(cnt := s.cnt + 1, closer := DestroyPushing)
    else s.(closer := Joining)
  }

  function ClosedTexts(strs: seq<Str>): (r: seq<Retired>)
    ensures |r| == |strs|
  {
    seq(|strs|, i requires 0 <= i < |strs| => Retired(strs[i].text, Closed))
  }

  function ClearSavedStep(s: State): State {
    s.(saved := [], freed := s.freed + s.saved, retired := s.retired + ClosedTexts(s.saved), closer := Draining)
  }

  function DrainStep(s: State, i: nat): State
    requires i < |s.queue|
  {
    var own := Own(s.queue[i]);
    s.(queue := Without(s.queue, i), cleared := s.cleared + 1,
       freed := s.freed + own, retired := s.retired + ClosedTexts(own))
  }

  function Apply(s: State, step: Step): State {
    if !Enabled(s, step) then s else
    match step
    case SendElog(text) => SendElogStep(s, text)
    case Push(i) => PushStep(s, i)
    case PushFails(i) => s.(senders := s.senders[i := s.senders[i].(failed := true)])
    case UndoSend(i) => UndoSendStep(s, i)
    case Receive(i) => s.(queue := Without(s.queue, i), pc := Received(s.queue[i]))
    case CountOut => s.(cnt := s.cnt - 1, pc := Handling(s.pc.cmd))
    case HandleRegister(ok) => RegisterStep(s, ok)
    case HandleWait(connected) => WaitStep(s, connected)
    case HandleMessage(connected, taken) => MessageStep(s, s.pc.cmd.str, connected, taken)
    case HandleDestroy => s.(pc := Exited)
    case Force => ForceStep(s)
    case ForcePush => s.(queue := s.queue + [s.pc.cmd], pc := Receiving)
    case ForcePushFails => s.(pc := ForceUndoing(s.pc.cmd))
    case ForceUndo => ForceUndoStep(s)
    case TelemetryFinished(i) => TelemetryFinishedStep(s, i)
    case TelemetryError(i) => TelemetryErrorStep(s, i)
    case TelemetryUnexpected(i) => TelemetryUnexpectedStep(s, i)
    case AdmitResend => AdmitResendStep(s)
    case ResendPush => s.(queue := s.queue + [Resend(s.pc.str)], pc := Processing)
    case ResendPushFails => s.(pc := ResendUndoing(s.pc.str))
    case ResendUndo => Retire(s, s.pc.str, ResendRefused).(cnt := s.cnt - 1, pc := Processing)
    case LeaveProcessing => s.(pc := Receiving)
    case PostDestroy => PostDestroyStep(s)
    case DestroyPush => s.(queue := s.queue + [Destroy], closer := Joining)
    case DestroyPushFails => s.(closer := DestroyUndoing)
    case DestroyUndo => s.(cnt := s.cnt - 1, closer := Open)
    case ClearSaved => ClearSavedStep(s)
    case DrainOne(i) => DrainStep(s, i)
  }

  function Exec(steps: seq<Step>): State {
    if steps == [] then START else Apply(Exec(steps[..|steps| - 1]), steps[|steps| - 1])
  }

  // ---------------------------------------------------------- the reserved places

  /** Commands counted in but not in the queue. */
  function Underway(s: State): nat {
    |s.senders|
    + (if s.pc.Received? || s.pc.ForcePushing? || s.pc.ForceUndoing? || s.pc.ResendPushing? || s.pc.ResendUndoing?
       then 1 else 0)
    + (if s.closer == DestroyPushing || s.closer == DestroyUndoing then 1 else 0)
    + s.cleared
  }

  /** The thread may still post one command for the one it has counted out. */
  function Credit(s: State): nat {
    if s.pc.Handling? || s.pc.Forcing? then 1 else 0
  }

  ghost predicate Counted(s: State) {
    && s.cnt == |s.queue| + Underway(s)
    && s.cnt + Credit(s) <= QUEUE_NUM + REGISTER_MSG_MAX + (if s.closer == Open then 0 else DESTROY_MSG_MAX)
  }

  predicate IsCallerStep(step: Step) {
    step.SendElog? || step.Push? || step.PushFails? || step.UndoSend?
  }

  predicate IsCloserStep(step: Step) {
    step.PostDestroy? || step.DestroyPush? || step.DestroyPushFails? || step.DestroyUndo?
    || step.ClearSaved? || step.DrainOne?
  }

  /** What the ELOG thread does inside SYS_process_event. */
  predicate IsCallbackStep(step: Step) {
    step.TelemetryFinished? || step.TelemetryError? || step.TelemetryUnexpected?
    || step.AdmitResend? || step.ResendPush? || step.ResendPushFails? || step.ResendUndo? || step.LeaveProcessing?
  }

  lemma CallersKeepCount(s: State, text: Message, i: nat)
    requires Counted(s)
    ensures Counted(SendElogStep(s, text))
    ensures i < |s.senders| ==> Counted(PushStep(s, i)) && Counted(UndoSendStep(s, i))
  {
  }

  lemma CallerKeepsCount(s: State, step: Step)
    requires Counted(s) && IsCallerStep(step) && Enabled(s, step)
    ensures Counted(Apply(s, step))
  {
    match step
    case SendElog(text) => CallersKeepCount(s, text, 0);
    case Push(i) => CallersKeepCount(s, Message(""), i);
    case UndoSend(i) => CallersKeepCount(s, Message(""), i);
    case PushFails(_) =>
  }

  lemma CloserKeepsCount(s: State, step: Step)
    requires Counted(s) && IsCloserStep(step)
    ensures Counted(Apply(s, step))
  {
  }

  lemma CallbackKeepsCount(s: State, step: Step)
    requires Counted(s) && IsCallbackStep(step)
    ensures Counted(Apply(s, step))
  {
  }

  predicate IsForcingStep(step: Step) {
    step.Force? || step.ForcePush? || step.ForcePushFails? || step.ForceUndo?
  }

  lemma ForcingKeepsCount(s: State, step: Step)
    requires Counted(s) && IsForcingStep(step)
    ensures Counted(Apply(s, step))
  {
  }

  lemma HandlingKeepsCount(s: State, step: Step)
    requires Counted(s) && !IsCallerStep(step) && !IsCloserStep(step) && !IsCallbackStep(step) && !IsForcingStep(step)
    ensures Counted(Apply(s, step))
  {
  }

  lemma ThreadKeepsCount(s: State, step: Step)
    requires Counted(s) && !IsCallerStep(step) && !IsCloserStep(step) && !IsCallbackStep(step)
    ensures Counted(Apply(s, step))
  {
    if IsForcingStep(step) {
      ForcingKeepsCount(s, step);
    } else {
      HandlingKeepsCount(s, step);
    }
  }

  lemma StepKeepsCount(s: State, step: Step)
    requires Counted(s)
    ensures Counted(Apply(s, step))
  {
    if !Enabled(s, step) {
    } else if IsCallerStep(step) {
      CallerKeepsCount(s, step);
    } else if IsCloserStep(step) {
      CloserKeepsCount(s, step);
    } else if IsCallbackStep(step) {
      CallbackKeepsCount(s, step);
    } else {
      ThreadKeepsCount(s, step);
    }
  }

  lemma {:induction false} RunIsCounted(steps: seq<Step>)
    ensures Counted(Exec(steps))
    decreases |steps|
  {
    if steps != [] {
      RunIsCounted(steps[..|steps| - 1]);
      StepKeepsCount(Exec(steps[..|steps| - 1]), steps[|steps| - 1]);
    }
  }

  /** In every run: the queue never holds more than its twelve places, a command
      about to be handed over finds one free, every command the thread posts to
      itself is admitted, and so is the destroy command. */
  lemma {:induction false} ReservedPlacesSuffice(steps: seq<Step>)
    ensures var s := Exec(steps);
            && |s.queue| <= s.cnt <= QUEUE_SIZE
            && (Enabled(s, Force) ==> s.cnt < QUEUE_SIZE && Apply(s, Force).pc == ForcePushing(s.pc.cmd))
            && (Enabled(s, PostDestroy) ==> s.cnt < QUEUE_SIZE && Apply(s, PostDestroy).closer == DestroyPushing)
            && (s.senders != [] || s.pc.ForcePushing? || s.pc.ResendPushing? || s.closer == DestroyPushing ==>
                 |s.queue| < QUEUE_SIZE)
  {
    RunIsCounted(steps);
  }
}

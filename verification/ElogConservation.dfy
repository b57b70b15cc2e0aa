/**
 Where every accepted event message is, and what becomes of every heap string.

 Both laws are balances: for any one message, or any one address, the number of its
 occurrences over all places is fixed.
 */
module ElogConservation {
  import opened Common
  import opened ElogSave
  import opened ElogQueue

  /** What is counted: the strings of a message, or the string at an address. */
  datatype Key = Text(message: Message) | Addr(address: nat)

  function Has(str: Str, key: Key): nat {
    match key
    case Text(message) => if str.text == message then 1 else 0
    case Addr(address) => if str.addr == address then 1 else 0
  }

  function Count(strs: seq<Str>, key: Key): nat {
    if strs == [] then 0 else Count(strs[..|strs| - 1], key) + Has(strs[|strs| - 1], key)
  }

  function CmdHas(cmd: Cmd, key: Key): nat {
    if IsMessage(cmd) then Has(cmd.str, key) else 0
  }

  function CountCmds(cmds: seq<Cmd>, key: Key): nat {
    if cmds == [] then 0 else CountCmds(cmds[..|cmds| - 1], key) + CmdHas(cmds[|cmds| - 1], key)
  }

  function CountSenders(senders: seq<Sender>, key: Key): nat {
    if senders == [] then 0 else CountSenders(senders[..|senders| - 1], key) + Has(senders[|senders| - 1].str, key)
  }

  function CountAccepted(accepted: seq<Message>, message: Message): nat {
    if accepted == [] then 0
    else CountAccepted(accepted[..|accepted| - 1], message) + if accepted[|accepted| - 1] == message then 1 else 0
  }

  function CountRetired(retired: seq<Retired>, message: Message): nat {
    if retired == [] then 0
    else CountRetired(retired[..|retired| - 1], message) + if retired[|retired| - 1].text == message then 1 else 0
  }

  /** The string in the hands of the ELOG thread. */
  function InHand(pc: Pc, key: Key): nat {
    match pc
    case Received(cmd) => CmdHas(cmd, key)
    case Handling(cmd) => CmdHas(cmd, key)
    case Forcing(cmd) => CmdHas(cmd, key)
    case ForcePushing(cmd) => CmdHas(cmd, key)
    case ForceUndoing(cmd) => CmdHas(cmd, key)
    case Resending(str) => Has(str, key)
    case ResendPushing(str) => Has(str, key)
    case ResendUndoing(str) => Has(str, key)
    case _ => 0
  }

  /** Occurrences among accepted messages: queued, in the thread's hands, in flight
      or saved. */
  function Held(s: State, key: Key): nat {
    CountCmds(s.queue, key) + InHand(s.pc, key) + Count(s.inflight, key) + Count(s.saved, key)
  }

  /** Occurrences elsewhere: a message may have been retired; a string may still be
      with its caller, or freed, or leaked. */
  function Elsewhere(s: State, key: Key): nat {
    match key
    case Text(message) => CountRetired(s.retired, message)
    case Addr(_) => CountSenders(s.senders, key) + Count(s.freed, key) + Count(s.leaked, key)
  }

  /** Occurrences there should be. */
  function Entered(s: State, key: Key): nat {
    match key
    case Text(message) => CountAccepted(s.accepted, message)
    case Addr(address) => if address < s.allocations then 1 else 0
  }

  /** `extra` counts what a step has taken out and not yet put back. */
  ghost predicate Balanced(s: State, key: Key, extra: nat) {
    Held(s, key) + extra + Elsewhere(s, key) == Entered(s, key)
  }

  // ------------------------------------------------------------- moving strings

  lemma CountAppend(strs: seq<Str>, str: Str, key: Key)
    ensures Count(strs + [str], key) == Count(strs, key) + Has(str, key)
  {
    assert (strs + [str])[..|strs|] == strs;
  }

  lemma {:induction false} CountConcat(a: seq<Str>, b: seq<Str>, key: Key)
    ensures Count(a + b, key) == Count(a, key) + Count(b, key)
    decreases |b|
  {
    if b == [] {
      assert a + b == a;
    } else {
      CountConcat(a, b[..|b| - 1], key);
      assert (a + b)[..|a + b| - 1] == a + b[..|b| - 1];
    }
  }

  lemma CountRemove(strs: seq<Str>, i: nat, key: Key)
    requires i < |strs|
    ensures Count(strs, key) == Count(Without(strs, i), key) + Has(strs[i], key)
  {
    assert strs == (strs[..i] + [strs[i]]) + strs[i + 1..];
    CountConcat(strs[..i] + [strs[i]], strs[i + 1..], key);
    CountAppend(strs[..i], strs[i], key);
    CountConcat(strs[..i], strs[i + 1..], key);
  }

  lemma CountCmdsAppend(cmds: seq<Cmd>, cmd: Cmd, key: Key)
    ensures CountCmds(cmds + [cmd], key) == CountCmds(cmds, key) + CmdHas(cmd, key)
  {
    assert (cmds + [cmd])[..|cmds|] == cmds;
  }

  lemma {:induction false} CountCmdsConcat(a: seq<Cmd>, b: seq<Cmd>, key: Key)
    ensures CountCmds(a + b, key) == CountCmds(a, key) + CountCmds(b, key)
    decreases |b|
  {
    if b == [] {
      assert a + b == a;
    } else {
      CountCmdsConcat(a, b[..|b| - 1], key);
      assert (a + b)[..|a + b| - 1] == a + b[..|b| - 1];
    }
  }

  lemma CountCmdsRemove(cmds: seq<Cmd>, i: nat, key: Key)
    requires i < |cmds|
    ensures CountCmds(cmds, key) == CountCmds(Without(cmds, i), key) + CmdHas(cmds[i], key)
  {
    assert cmds == (cmds[..i] + [cmds[i]]) + cmds[i + 1..];
    CountCmdsConcat(cmds[..i] + [cmds[i]], cmds[i + 1..], key);
    CountCmdsAppend(cmds[..i], cmds[i], key);
    CountCmdsConcat(cmds[..i], cmds[i + 1..], key);
  }

  lemma {:induction false} CountSendersConcat(a: seq<Sender>, b: seq<Sender>, key: Key)
    ensures CountSenders(a + b, key) == CountSenders(a, key) + CountSenders(b, key)
    decreases |b|
  {
    if b == [] {
      assert a + b == a;
    } else {
      CountSendersConcat(a, b[..|b| - 1], key);
      assert (a + b)[..|a + b| - 1] == a + b[..|b| - 1];
    }
  }

  lemma CountSendersAround(senders: seq<Sender>, i: nat, d: Sender, key: Key)
    requires i < |senders|
    ensures CountSenders(senders, key) == CountSenders(Without(senders, i), key) + Has(senders[i].str, key)
    ensures CountSenders(senders[i := d], key)
         == CountSenders(Without(senders, i), key) + Has(d.str, key)
  {
    var a, b := senders[..i], senders[i + 1..];
    assert senders == (a + [senders[i]]) + b && senders[i := d] == (a + [d]) + b;
    assert (a + [senders[i]])[..i] == a && (a + [d])[..i] == a;
    CountSendersConcat(a + [senders[i]], b, key);
    CountSendersConcat(a + [d], b, key);
    CountSendersConcat(a, b, key);
  }

  lemma CountRetiredAppend(retired: seq<Retired>, r: Retired, message: Message)
    ensures CountRetired(retired + [r], message) == CountRetired(retired, message) + if r.text == message then 1 else 0
  {
    assert (retired + [r])[..|retired|] == retired;
  }

  // --------------------------------------------------- taking out and putting in

  lemma RetireStr(s: State, str: Str, reason: Reason, key: Key)
    requires Balanced(s, key, Has(str, key))
    ensures Balanced(Retire(s, str, reason), key, 0)
  {
    match key
    case Text(message) => CountRetiredAppend(s.retired, Retired(str.text, reason), message);
    case Addr(_) => CountAppend(s.freed, str, key);
  }

  lemma LeakCmd(s: State, cmd: Cmd, key: Key)
    requires Balanced(s, key, CmdHas(cmd, key))
    ensures Balanced(s.(leaked := s.leaked + Own(cmd), retired := s.retired + Lost(cmd)), key, 0)
  {
    if IsMessage(cmd) {
      match key
      case Text(message) => CountRetiredAppend(s.retired, Retired(cmd.str.text, NeverFreed), message);
      case Addr(_) => CountAppend(s.leaked, cmd.str, key);
    } else {
      assert s.leaked + [] == s.leaked && s.retired + [] == s.retired;
    }
  }

  /** Copying frees the original; the copy is in the thread's hands. */
  lemma CopyStr(s: State, str: Str, key: Key)
    requires Balanced(s, key, Has(str, key))
    ensures var (t, copy) := Copied(s, str); Balanced(t, key, Has(copy, key))
  {
    if key.Addr? {
      CountAppend(s.freed, str, key);
    }
  }

  lemma SaveStr(s: State, str: Str, key: Key)
    requires Balanced(s, key, Has(str, key))
    ensures Balanced(SaveAndFree(s, str), key, 0)
  {
    if |s.saved| < SAVE_NUM {
      CopyStr(s, str, key);
      CountAppend(s.saved, Str(s.allocations, str.text), key);
    } else {
      RetireStr(s, str, SaveFull, key);
    }
  }

  lemma TakeSaved(s: State, key: Key)
    requires Balanced(s, key, 0) && s.saved != []
    ensures Balanced(s.(saved := Loaded(s.saved)), key, Has(s.saved[0], key))
  {
    CountRemove(s.saved, 0, key);
    assert Without(s.saved, 0) == Loaded(s.saved);
  }

  lemma LoadStr(s: State, key: Key)
    requires Balanced(s, key, 0) && s.saved != []
    ensures var (t, copy) := Copied(s, s.saved[0]); Balanced(t.(saved := Loaded(s.saved)), key, Has(copy, key))
  {
    TakeSaved(s, key);
    CopyStr(s.(saved := Loaded(s.saved)), s.saved[0], key);
  }

  // ------------------------------------------------------------- callers' steps

  lemma CountSendersAppend(senders: seq<Sender>, d: Sender, key: Key)
    ensures CountSenders(senders + [d], key) == CountSenders(senders, key) + Has(d.str, key)
  {
    assert (senders + [d])[..|senders|] == senders;
  }

  /** A new string is in no place yet. */
  lemma AllocateStr(s: State, text: Message, key: Key)
    requires Balanced(s, key, 0)
    ensures key.Addr? ==> Balanced(s.(allocations := s.allocations + 1), key, Has(Str(s.allocations, text), key))
    ensures key.Text? ==> Balanced(s.(allocations := s.allocations + 1), key, 0)
  {
  }

  lemma AdmitSender(s: State, str: Str, key: Key)
    requires key.Addr? && Balanced(s, key, Has(str, key))
    ensures Balanced(s.(cnt := s.cnt + 1, senders := s.senders + [Sender(str, false)]), key, 0)
  {
    CountSendersAppend(s.senders, Sender(str, false), key);
  }

  lemma RefuseSender(s: State, str: Str, key: Key)
    requires key.Addr? && Balanced(s, key, Has(str, key))
    ensures Balanced(Free(s, str), key, 0)
  {
    CountAppend(s.freed, str, key);
  }

  lemma SendKeepsBalance(s: State, text: Message, key: Key)
    requires Balanced(s, key, 0)
    ensures Balanced(SendElogStep(s, text), key, 0)
  {
    AllocateStr(s, text, key);
    if key.Addr? {
      var t := s.(allocations := s.allocations + 1);
      if s.cnt < QUEUE_NUM {
        AdmitSender(t, Str(s.allocations, text), key);
      } else {
        RefuseSender(t, Str(s.allocations, text), key);
      }
    }
  }

  lemma PushAcceptsMessage(s: State, i: nat, message: Message)
    requires Balanced(s, Text(message), 0) && i < |s.senders|
    ensures Balanced(PushStep(s, i), Text(message), 0)
  {
    var str := s.senders[i].str;
    CountCmdsAppend(s.queue, Send(str), Text(message));
    assert (s.accepted + [str.text])[..|s.accepted|] == s.accepted;
  }

  lemma PushMovesString(s: State, i: nat, address: nat)
    requires Balanced(s, Addr(address), 0) && i < |s.senders|
    ensures Balanced(PushStep(s, i), Addr(address), 0)
  {
    CountCmdsAppend(s.queue, Send(s.senders[i].str), Addr(address));
    CountSendersAround(s.senders, i, s.senders[i], Addr(address));
  }

  lemma PushKeepsBalance(s: State, i: nat, key: Key)
    requires Balanced(s, key, 0) && i < |s.senders|
    ensures Balanced(PushStep(s, i), key, 0)
  {
    match key
    case Text(message) => PushAcceptsMessage(s, i, message);
    case Addr(address) => PushMovesString(s, i, address);
  }

  lemma UndoKeepsBalance(s: State, i: nat, key: Key)
    requires Balanced(s, key, 0) && i < |s.senders|
    ensures Balanced(UndoSendStep(s, i), key, 0)
  {
    if key.Addr? {
      CountSendersAround(s.senders, i, s.senders[i], key);
      CountAppend(s.freed, s.senders[i].str, key);
    }
  }

  lemma CallerKeepsBalance(s: State, step: Step, key: Key)
    requires Balanced(s, key, 0) && IsCallerStep(step) && Enabled(s, step)
    ensures Balanced(Apply(s, step), key, 0)
  {
    match step {
      case SendElog(text) => SendKeepsBalance(s, text, key);
      case Push(i) => PushKeepsBalance(s, i, key);
      case UndoSend(i) => UndoKeepsBalance(s, i, key);
      case PushFails(i) => CountSendersAround(s.senders, i, s.senders[i].(failed := true), key);
    }
  }

  // -------------------------------------------------------- the ELOG thread's steps

  lemma WaitKeepsBalance(s: State, connected: bool, key: Key)
    requires Balanced(s, key, 0) && s.pc == Handling(Wait)
    ensures Balanced(WaitStep(s, connected), key, 0)
  {
    if connected && s.saved != [] {
      LoadStr(s, key);
    }
  }

  lemma LeaveHand(s: State, pc: Pc, key: Key)
    requires Balanced(s, key, 0) && InHand(pc, key) == 0
    ensures Balanced(s.(pc := pc), key, InHand(s.pc, key))
  {
  }

  lemma TakeInflight(s: State, str: Str, key: Key)
    requires Balanced(s, key, Has(str, key))
    ensures Balanced(s.(inflight := s.inflight + [str]), key, 0)
  {
    CountAppend(s.inflight, str, key);
    var t := s.(inflight := s.inflight + [str]);
    assert Held(t, key) == Held(s, key) + Has(str, key);
    assert Elsewhere(t, key) == Elsewhere(s, key) && Entered(t, key) == Entered(s, key);
  }

  lemma PutCmd(s: State, cmd: Cmd, key: Key)
    requires Balanced(s, key, CmdHas(cmd, key))
    ensures Balanced(s.(queue := s.queue + [cmd]), key, 0)
  {
    CountCmdsAppend(s.queue, cmd, key);
  }

  /** Neither the counter nor the register flag holds strings. */
  lemma CountersDoNotMatter(s: State, cnt: int, requested: bool, key: Key, extra: nat)
    requires Balanced(s, key, extra)
    ensures Balanced(s.(cnt := cnt, registerRequested := requested), key, extra)
  {
  }

  lemma SentKeepsBalance(s: State, str: Str, taken: bool, key: Key)
    requires Balanced(s, key, 0) && s.client && s.pc.Handling? && IsMessage(s.pc.cmd) && s.pc.cmd.str == str
    ensures Balanced(MessageStep(s, str, true, taken), key, 0)
  {
    var t := s.(pc := Processing);
    LeaveHand(s, Processing, key);
    if taken {
      TakeInflight(t, str, key);
    } else {
      RetireStr(t, str, TelemetryRefused, key);
    }
  }

  lemma UnsentIsSaved(s: State, str: Str, connected: bool, taken: bool)
    requires !(s.client && connected)
    ensures var pc := if s.registerRequested then Receiving else Forcing(Register);
            MessageStep(s, str, connected, taken)
            == SaveAndFree(s.(pc := pc), str).(cnt := s.cnt, registerRequested := true)
  {
  }

  lemma UnsentKeepsBalance(s: State, str: Str, connected: bool, taken: bool, key: Key)
    requires Balanced(s, key, 0) && !(s.client && connected)
    requires s.pc.Handling? && IsMessage(s.pc.cmd) && s.pc.cmd.str == str
    ensures Balanced(MessageStep(s, str, connected, taken), key, 0)
  {
    var pc := if s.registerRequested then Receiving else Forcing(Register);
    LeaveHand(s, pc, key);
    SaveStr(s.(pc := pc), str, key);
    CountersDoNotMatter(SaveAndFree(s.(pc := pc), str), s.cnt, true, key, 0);
    UnsentIsSaved(s, str, connected, taken);
  }

  lemma MessageKeepsBalance(s: State, connected: bool, taken: bool, key: Key)
    requires Balanced(s, key, 0) && Enabled(s, HandleMessage(connected, taken))
    ensures Balanced(MessageStep(s, s.pc.cmd.str, connected, taken), key, 0)
  {
    if s.client && connected {
      SentKeepsBalance(s, s.pc.cmd.str, taken, key);
    } else {
      UnsentKeepsBalance(s, s.pc.cmd.str, connected, taken, key);
    }
  }

  lemma ForcePushKeepsBalance(s: State, key: Key)
    requires Balanced(s, key, 0) && s.pc.ForcePushing?
    ensures Balanced(s.(queue := s.queue + [s.pc.cmd], pc := Receiving), key, 0)
  {
    LeaveHand(s, Receiving, key);
    PutCmd(s.(pc := Receiving), s.pc.cmd, key);
  }

  lemma ForceKeepsBalance(s: State, key: Key)
    requires Balanced(s, key, 0) && s.pc.Forcing?
    ensures Balanced(ForceStep(s), key, 0)
  {
    if s.cnt >= QUEUE_SIZE {
      LeaveHand(s, Receiving, key);
      LeakCmd(s.(pc := Receiving), s.pc.cmd, key);
    }
  }

  lemma ForceUndoKeepsBalance(s: State, key: Key)
    requires Balanced(s, key, 0) && s.pc.ForceUndoing?
    ensures Balanced(ForceUndoStep(s), key, 0)
  {
    LeaveHand(s, Receiving, key);
    LeakCmd(s.(pc := Receiving), s.pc.cmd, key);
  }

  lemma ReceiveKeepsBalance(s: State, i: nat, key: Key)
    requires Balanced(s, key, 0) && s.pc == Receiving && i < |s.queue|
    ensures Balanced(s.(queue := Without(s.queue, i), pc := Received(s.queue[i])), key, 0)
  {
    CountCmdsRemove(s.queue, i, key);
  }

  lemma ThreadKeepsBalance(s: State, step: Step, key: Key)
    requires Balanced(s, key, 0) && Enabled(s, step)
    requires !IsCallerStep(step) && !IsCloserStep(step) && !IsCallbackStep(step)
    ensures Balanced(Apply(s, step), key, 0)
  {
    match step {
      case Receive(i) => ReceiveKeepsBalance(s, i, key);
      case HandleWait(connected) => WaitKeepsBalance(s, connected, key);
      case HandleMessage(connected, taken) => MessageKeepsBalance(s, connected, taken, key);
      case Force => ForceKeepsBalance(s, key);
      case ForcePush => ForcePushKeepsBalance(s, key);
      case ForceUndo => ForceUndoKeepsBalance(s, key);
      case _ =>
    }
  }

  lemma LeaveInflight(s: State, i: nat, key: Key)
    requires Balanced(s, key, 0) && i < |s.inflight|
    ensures Balanced(s.(inflight := Without(s.inflight, i)), key, Has(s.inflight[i], key))
  {
    CountRemove(s.inflight, i, key);
  }

  lemma LoadKeepsBalance(s: State, key: Key)
    requires Balanced(s, key, 0) && s.saved != [] && s.pc == Processing
    ensures var (t, copy) := Copied(s, s.saved[0]);
            Balanced(t.(saved := Loaded(s.saved), pc := Resending(copy)), key, 0)
  {
    LoadStr(s, key);
  }

  lemma FinishedKeepsBalance(s: State, i: nat, key: Key)
    requires Balanced(s, key, 0) && s.pc == Processing && i < |s.inflight|
    ensures Balanced(TelemetryFinishedStep(s, i), key, 0)
  {
    var t := s.(inflight := Without(s.inflight, i));
    LeaveInflight(s, i, key);
    RetireStr(t, s.inflight[i], Delivered, key);
    if s.saved != [] {
      LoadKeepsBalance(Retire(t, s.inflight[i], Delivered), key);
    }
  }

  lemma ErrorKeepsBalance(s: State, i: nat, key: Key)
    requires Balanced(s, key, 0) && i < |s.inflight|
    ensures Balanced(TelemetryErrorStep(s, i), key, 0)
  {
    LeaveInflight(s, i, key);
    SaveStr(s.(inflight := Without(s.inflight, i)), s.inflight[i], key);
  }

  lemma UnexpectedKeepsBalance(s: State, i: nat, key: Key)
    requires Balanced(s, key, 0) && i < |s.inflight|
    ensures Balanced(TelemetryUnexpectedStep(s, i), key, 0)
  {
    LeaveInflight(s, i, key);
    RetireStr(s.(inflight := Without(s.inflight, i)), s.inflight[i], UnexpectedReason, key);
  }

  lemma AdmitResendKeepsBalance(s: State, key: Key)
    requires Balanced(s, key, 0) && s.pc.Resending?
    ensures Balanced(AdmitResendStep(s), key, 0)
  {
    if s.cnt >= QUEUE_NUM {
      LeaveHand(s, Processing, key);
      RetireStr(s.(pc := Processing), s.pc.str, ResendRefused, key);
    }
  }

  lemma ResendPushKeepsBalance(s: State, key: Key)
    requires Balanced(s, key, 0) && s.pc.ResendPushing?
    ensures Balanced(s.(queue := s.queue + [Resend(s.pc.str)], pc := Processing), key, 0)
  {
    LeaveHand(s, Processing, key);
    PutCmd(s.(pc := Processing), Resend(s.pc.str), key);
  }

  lemma ResendUndoKeepsBalance(s: State, key: Key)
    requires Balanced(s, key, 0) && s.pc.ResendUndoing?
    ensures Balanced(Retire(s, s.pc.str, ResendRefused).(cnt := s.cnt - 1, pc := Processing), key, 0)
  {
    LeaveHand(s, Processing, key);
    RetireStr(s.(pc := Processing), s.pc.str, ResendRefused, key);
  }

  lemma ResendKeepsBalance(s: State, step: Step, key: Key)
    requires Balanced(s, key, 0) && Enabled(s, step)
    requires step.AdmitResend? || step.ResendPush? || step.ResendPushFails? || step.ResendUndo?
    ensures Balanced(Apply(s, step), key, 0)
  {
    match step {
      case AdmitResend => AdmitResendKeepsBalance(s, key);
      case ResendPush => ResendPushKeepsBalance(s, key);
      case ResendUndo => ResendUndoKeepsBalance(s, key);
      case _ =>
    }
  }

  lemma CallbackKeepsBalance(s: State, step: Step, key: Key)
    requires Balanced(s, key, 0) && IsCallbackStep(step) && Enabled(s, step)
    ensures Balanced(Apply(s, step), key, 0)
  {
    match step {
      case TelemetryFinished(i) => FinishedKeepsBalance(s, i, key);
      case TelemetryError(i) => ErrorKeepsBalance(s, i, key);
      case TelemetryUnexpected(i) => UnexpectedKeepsBalance(s, i, key);
      case LeaveProcessing => LeaveHand(s, Receiving, key);
      case _ => ResendKeepsBalance(s, step, key);
    }
  }

  // ------------------------------------------------------------ the closing thread

  lemma {:induction false} CountClosed(retired: seq<Retired>, strs: seq<Str>, message: Message)
    ensures CountRetired(retired + ClosedTexts(strs), message)
         == CountRetired(retired, message) + Count(strs, Text(message))
    decreases |strs|
  {
    if strs == [] {
      assert retired + ClosedTexts(strs) == retired;
    } else {
      var init, last := strs[..|strs| - 1], strs[|strs| - 1];
      CountClosed(retired, init, message);
      assert retired + ClosedTexts(strs) == (retired + ClosedTexts(init)) + [Retired(last.text, Closed)];
      CountRetiredAppend(retired + ClosedTexts(init), Retired(last.text, Closed), message);
    }
  }

  lemma CloseStrs(s: State, strs: seq<Str>, key: Key)
    requires Balanced(s, key, Count(strs, key))
    ensures Balanced(s.(freed := s.freed + strs, retired := s.retired + ClosedTexts(strs)), key, 0)
  {
    match key
    case Text(message) => CountClosed(s.retired, strs, message);
    case Addr(_) => CountConcat(s.freed, strs, key);
  }

  lemma OwnCounts(cmd: Cmd, key: Key)
    ensures Count(Own(cmd), key) == CmdHas(cmd, key)
  {
    if IsMessage(cmd) {
      CountAppend([], cmd.str, key);
      assert [] + [cmd.str] == Own(cmd);
    }
  }

  lemma DrainKeepsBalance(s: State, i: nat, key: Key)
    requires Balanced(s, key, 0) && i < |s.queue|
    ensures Balanced(DrainStep(s, i), key, 0)
  {
    CountCmdsRemove(s.queue, i, key);
    OwnCounts(s.queue[i], key);
    CloseStrs(s.(queue := Without(s.queue, i)), Own(s.queue[i]), key);
  }

  lemma ClearKeepsBalance(s: State, key: Key)
    requires Balanced(s, key, 0)
    ensures Balanced(ClearSavedStep(s), key, 0)
  {
    CloseStrs(s.(saved := []), s.saved, key);
  }

  lemma PostingOnlyCounts(s: State, step: Step)
    requires step.PostDestroy? || step.DestroyPushFails? || step.DestroyUndo?
    ensures var t := Apply(s, step); t == s.(cnt := t.cnt, closer := t.closer)
  {
  }

  lemma PostingKeepsBalance(s: State, cnt: int, closer: Closer, key: Key)
    requires Balanced(s, key, 0)
    ensures Balanced(s.(cnt := cnt, closer := closer), key, 0)
  {
  }

  lemma DestroyPushKeepsBalance(s: State, key: Key)
    requires Balanced(s, key, 0)
    ensures Balanced(s.(queue := s.queue + [Destroy], closer := Joining), key, 0)
  {
    PutCmd(s, Destroy, key);
  }

  lemma CloserKeepsBalance(s: State, step: Step, key: Key)
    requires Balanced(s, key, 0) && IsCloserStep(step) && Enabled(s, step)
    ensures Balanced(Apply(s, step), key, 0)
  {
    match step {
      case ClearSaved => ClearKeepsBalance(s, key);
      case DrainOne(i) => DrainKeepsBalance(s, i, key);
      case DestroyPush => DestroyPushKeepsBalance(s, key);
      case _ =>
        PostingOnlyCounts(s, step);
        PostingKeepsBalance(s, Apply(s, step).cnt, Apply(s, step).closer, key);
    }
  }

  // ----------------------------------------------------------------------- runs

  lemma {:induction false} RunIsBalanced(steps: seq<Step>, key: Key)
    ensures Balanced(Exec(steps), key, 0)
    decreases |steps|
  {
    if steps != [] {
      var s, step := Exec(steps[..|steps| - 1]), steps[|steps| - 1];
      RunIsBalanced(steps[..|steps| - 1], key);
      if !Enabled(s, step) {
      } else if IsCallerStep(step) {
        CallerKeepsBalance(s, step, key);
      } else if IsCloserStep(step) {
        CloserKeepsBalance(s, step, key);
      } else if IsCallbackStep(step) {
        CallbackKeepsBalance(s, step, key);
      } else {
        ThreadKeepsBalance(s, step, key);
      }
    }
  }

  /** In every run, each accepted message is held or retired exactly as often as it
      was accepted: never lost, never duplicated. */
  lemma {:induction false} MessagesAreConserved(steps: seq<Step>, message: Message)
    ensures var s := Exec(steps);
            Held(s, Text(message)) + CountRetired(s.retired, message) == CountAccepted(s.accepted, message)
  {
    RunIsBalanced(steps, Text(message));
  }

  /** In every run, each string ever allocated is in exactly one place: held, still
      with its caller, freed or leaked.  So no string is freed twice or used after
      it was freed. */
  lemma {:induction false} StringsAreFreedOnce(steps: seq<Step>, address: nat)
    ensures var s, key := Exec(steps), Addr(address);
            Held(s, key) + CountSenders(s.senders, key) + Count(s.freed, key) + Count(s.leaked, key)
            == if address < s.allocations then 1 else 0
  {
    RunIsBalanced(steps, Addr(address));
  }

  // ---------------------------------------------------------------------- leaks

  /** The strings of the resends that the thread posted to itself and counted in, and
      that could then not be handed to the message queue, in order. */
  function RefusedResends(steps: seq<Step>): seq<Str> {
    if steps == [] then []
    else
      var s := Exec(steps[..|steps| - 1]);
      RefusedResends(steps[..|steps| - 1])
      + if steps[|steps| - 1] == ForceUndo && s.pc.ForceUndoing? && IsMessage(s.pc.cmd) then [s.pc.cmd.str] else []
  }

  lemma ForcingLeaksNothing(s: State)
    requires Counted(s) && s.pc.Forcing?
    ensures ForceStep(s).leaked == s.leaked
  {
  }

  lemma OtherStepLeaksNothing(s: State, step: Step)
    requires step != Force && step != ForceUndo
    ensures Apply(s, step).leaked == s.leaked
  {
  }

  lemma StepLeaks(s: State, step: Step)
    requires Counted(s)
    ensures Apply(s, step).leaked
         == s.leaked
            + if step == ForceUndo && s.pc.ForceUndoing? && IsMessage(s.pc.cmd) then [s.pc.cmd.str] else []
  {
    if step == Force {
      if s.pc.Forcing? {
        ForcingLeaksNothing(s);
      }
    } else if step != ForceUndo {
      OtherStepLeaksNothing(s, step);
    }
  }

  /** The strings leaked are exactly those of the resends that the ELOG thread posts to
      itself and the message queue refuses; running out of places never leaks one. */
  lemma {:induction false} LeaksAreFailedResends(steps: seq<Step>)
    ensures Exec(steps).leaked == RefusedResends(steps)
    decreases |steps|
  {
    if steps != [] {
      var init := steps[..|steps| - 1];
      LeaksAreFailedResends(init);
      RunIsCounted(init);
      StepLeaks(Exec(init), steps[|steps| - 1]);
    }
  }

  /** A run that leaks: the first message arrives unconnected and is saved, the
      thread registers, connects and loads it, and the message queue refuses it. */
  function LeakingRun(m: Message): seq<Step> {
    [SendElog(m), Push(0), Receive(0), CountOut, HandleMessage(false, false), Force, ForcePush,
     Receive(0), CountOut, HandleRegister(true), Force, ForcePush,
     Receive(0), CountOut, HandleWait(true), Force, ForcePushFails, ForceUndo]
  }

  /** The states of that run: sending, registering, waiting. */
  function LeakingState(m: Message, k: nat): State {
    var sent := START.(allocations := 1, cnt := 1);
    var queued := sent.(accepted := [m]);
    var saved := queued.(cnt := 0, allocations := 2, freed := [Str(0, m)], saved := [Str(1, m)],
                         registerRequested := true);
    var waiting := saved.(client := true);
    var loaded := waiting.(saved := [], allocations := 3, freed := [Str(0, m), Str(1, m)], registerRequested := false);
    var resend := Resend(Str(2, m));
    match k
    case 0 => START
    case 1 => sent.(senders := [Sender(Str(0, m), false)])
    case 2 => queued.(queue := [Send(Str(0, m))])
    case 3 => queued.(pc := Received(Send(Str(0, m))))
    case 4 => queued.(cnt := 0, pc := Handling(Send(Str(0, m))))
    case 5 => saved.(pc := Forcing(Register))
    case 6 => saved.(cnt := 1, pc := ForcePushing(Register))
    case 7 => saved.(cnt := 1, queue := [Register])
    case 8 => saved.(cnt := 1, pc := Received(Register))
    case 9 => saved.(pc := Handling(Register))
    case 10 => waiting.(pc := Forcing(Wait))
    case 11 => waiting.(cnt := 1, pc := ForcePushing(Wait))
    case 12 => waiting.(cnt := 1, queue := [Wait])
    case 13 => waiting.(cnt := 1, pc := Received(Wait))
    case 14 => waiting.(pc := Handling(Wait))
    case 15 => loaded.(pc := Forcing(resend))
    case 16 => loaded.(cnt := 1, pc := ForcePushing(resend))
    case 17 => loaded.(cnt := 1, pc := ForceUndoing(resend))
    case _ => loaded.(leaked := [Str(2, m)], retired := [Retired(m, NeverFreed)])
  }

  lemma SendingStep(m: Message, k: nat)
    requires 0 <= k < 5
    ensures Apply(LeakingState(m, k), LeakingRun(m)[k]) == LeakingState(m, k + 1)
  {
  }

  lemma RegisteringStep(m: Message, k: nat)
    requires 5 <= k < 10
    ensures Apply(LeakingState(m, k), LeakingRun(m)[k]) == LeakingState(m, k + 1)
  {
  }

  lemma ConnectingStep(m: Message, k: nat)
    requires 10 <= k < 14
    ensures Apply(LeakingState(m, k), LeakingRun(m)[k]) == LeakingState(m, k + 1)
  {
  }

  lemma ResendingStep(m: Message, k: nat)
    requires 14 <= k < 16
    ensures Apply(LeakingState(m, k), LeakingRun(m)[k]) == LeakingState(m, k + 1)
  {
  }

  lemma LeakingStep(m: Message, k: nat)
    requires 16 <= k < 18
    ensures Apply(LeakingState(m, k), LeakingRun(m)[k]) == LeakingState(m, k + 1)
  {
  }

  lemma {:induction false} LeakingStates(m: Message, k: nat)
    requires k <= 18
    ensures Exec(LeakingRun(m)[..k]) == LeakingState(m, k)
    decreases k
  {
    var steps := LeakingRun(m);
    if k != 0 {
      LeakingStates(m, k - 1);
      if k <= 5 {
        SendingStep(m, k - 1);
      } else if k <= 10 {
        RegisteringStep(m, k - 1);
      } else if k <= 14 {
        ConnectingStep(m, k - 1);
      } else if k <= 16 {
        ResendingStep(m, k - 1);
      } else {
        LeakingStep(m, k - 1);
      }
      assert steps[..k][..k - 1] == steps[..k - 1] && steps[..k][k - 1] == steps[k - 1];
    }
  }

  /** So the promise that every string is freed does not hold of every run. */
  lemma SomeRunLeaks(m: Message)
    ensures var s := Exec(LeakingRun(m)); s.leaked == [Str(2, m)] && s.accepted == [m] && s.pc == Receiving
  {
    LeakingStates(m, 18);
    assert LeakingRun(m)[..18] == LeakingRun(m);
  }

  // ------------------------------------------------------------- after the close

  ghost predicate ClosedDown(s: State) {
    s.closer == Draining ==> s.pc == Exited && s.saved == []
  }

  lemma StepKeepsClosedDown(s: State, step: Step)
    requires ClosedDown(s)
    ensures ClosedDown(Apply(s, step))
  {
  }

  lemma {:induction false} RunIsClosedDown(steps: seq<Step>)
    ensures ClosedDown(Exec(steps))
    decreases |steps|
  {
    if steps != [] {
      RunIsClosedDown(steps[..|steps| - 1]);
      StepKeepsClosedDown(Exec(steps[..|steps| - 1]), steps[|steps| - 1]);
    }
  }

  /** Once the closing thread has emptied the queue and no caller is left, every
      string is freed but for those the agent still has and those leaked, and every
      accepted message is retired or with the agent. */
  lemma NothingIsLeftBehind(steps: seq<Step>, address: nat, message: Message)
    requires var s := Exec(steps); s.closer == Draining && s.queue == [] && s.senders == []
    ensures var s := Exec(steps);
            && Count(s.inflight, Addr(address)) + Count(s.freed, Addr(address)) + Count(s.leaked, Addr(address))
               == (if address < s.allocations then 1 else 0)
            && Count(s.inflight, Text(message)) + CountRetired(s.retired, message)
               == CountAccepted(s.accepted, message)
  {
    RunIsClosedDown(steps);
    RunIsBalanced(steps, Addr(address));
    RunIsBalanced(steps, Text(message));
  }
}

/**
 When an event message is saved, sent or given up: for every run, read off the state
 before each step.
 */
module ElogHistory {
  import opened Common
  import opened ElogSave
  import opened ElogQueue

  function Texts(strs: seq<Str>): (r: seq<Message>)
    ensures |r| == |strs| && forall i :: 0 <= i < |r| ==> r[i] == strs[i].text
  {
    seq(|strs|, i requires 0 <= i < |strs| => strs[i].text)
  }

  predicate IsConnected(s: State, step: Step) {
    step.HandleMessage? && s.client && step.connected
  }

  /** A message that has to wait: it cannot be sent now, or sending it has failed. */
  function ToSave(s: State, step: Step): Option<Message> {
    if !Enabled(s, step) then None
    else if step.HandleMessage? && !IsConnected(s, step) then Some(s.pc.cmd.str.text)
    else if step.TelemetryError? then Some(s.inflight[step.i].text)
    else None
  }

  /** The oldest saved message goes out: after a delivery, or once connected. */
  predicate TakesSaved(s: State, step: Step) {
    Enabled(s, step) && s.saved != [] && (step.TelemetryFinished? || (step.HandleWait? && step.connected))
  }

  /** The messages given up in a step, and why. */
  function GivenUp(s: State, step: Step): seq<Retired> {
    if !Enabled(s, step) then []
    else
      match step
      case TelemetryFinished(i) => [Retired(s.inflight[i].text, Delivered)]
      case TelemetryUnexpected(i) => [Retired(s.inflight[i].text, UnexpectedReason)]
      case TelemetryError(i) => if |s.saved| >= 5 then [Retired(s.inflight[i].text, SaveFull)] else []
      case HandleMessage(connected, taken) =>
        if s.client && connected then (if taken then [] else [Retired(s.pc.cmd.str.text, TelemetryRefused)])
        else if |s.saved| >= 5 then [Retired(s.pc.cmd.str.text, SaveFull)]
        else []
      case AdmitResend => if s.cnt >= 10 then [Retired(s.pc.str.text, ResendRefused)] else []
      case ResendUndo => [Retired(s.pc.str.text, ResendRefused)]
      case ForceUndo => if s.pc.cmd.Send? || s.pc.cmd.Resend? then [Retired(s.pc.cmd.str.text, NeverFreed)] else []
      case ClearSaved => seq(|s.saved|, i requires 0 <= i < |s.saved| => Retired(s.saved[i].text, Closed))
      case DrainOne(i) =>
        if s.queue[i].Send? || s.queue[i].Resend? then [Retired(s.queue[i].str.text, Closed)] else []
      case _ => []
  }

  /** The messages that wait after a step. */
  function WaitingAfter(s: State, step: Step): seq<Message> {
    if ToSave(s, step).Some? && |s.saved| < 5 then Texts(s.saved) + [ToSave(s, step).value]
    else if TakesSaved(s, step) then Texts(s.saved)[1..]
    else if Enabled(s, step) && step.ClearSaved? then []
    else Texts(s.saved)
  }

  /** The messages the agent has after a step. */
  function SentAfter(s: State, step: Step): seq<Message> {
    if !Enabled(s, step) then Texts(s.inflight)
    else if IsConnected(s, step) && step.taken then Texts(s.inflight) + [s.pc.cmd.str.text]
    else if step.TelemetryFinished? || step.TelemetryError? || step.TelemetryUnexpected? then
      Without(Texts(s.inflight), step.i)
    else Texts(s.inflight)
  }

  // ------------------------------------------------------------------- one step

  lemma AppendText(strs: seq<Str>, str: Str)
    ensures Texts(strs + [str]) == Texts(strs) + [str.text]
  {
  }

  lemma MessageGoes(s: State, connected: bool, taken: bool)
    requires Enabled(s, HandleMessage(connected, taken))
    ensures var step, t := HandleMessage(connected, taken), Apply(s, HandleMessage(connected, taken));
            && t.retired == s.retired + GivenUp(s, step)
            && Texts(t.saved) == WaitingAfter(s, step)
            && Texts(t.inflight) == SentAfter(s, step)
  {
    var str := s.pc.cmd.str;
    AppendText(s.inflight, str);
    AppendText(s.saved, Str(s.allocations, str.text));
  }

  lemma ErrorGoes(s: State, i: nat)
    requires Enabled(s, TelemetryError(i))
    ensures var step, t := TelemetryError(i), Apply(s, TelemetryError(i));
            && t.retired == s.retired + GivenUp(s, step)
            && Texts(t.saved) == WaitingAfter(s, step)
            && Texts(t.inflight) == SentAfter(s, step)
  {
    AppendText(s.saved, Str(s.allocations, s.inflight[i].text));
    assert Texts(Without(s.inflight, i)) == Without(Texts(s.inflight), i);
  }

  lemma FinishedGoes(s: State, i: nat)
    requires Enabled(s, TelemetryFinished(i))
    ensures var step, t := TelemetryFinished(i), Apply(s, TelemetryFinished(i));
            && t.retired == s.retired + GivenUp(s, step)
            && Texts(t.saved) == WaitingAfter(s, step)
            && Texts(t.inflight) == SentAfter(s, step)
  {
    assert Texts(Without(s.inflight, i)) == Without(Texts(s.inflight), i);
    if s.saved != [] {
      assert Texts(Loaded(s.saved)) == Texts(s.saved)[1..];
    }
  }

  lemma WaitGoes(s: State, connected: bool)
    requires Enabled(s, HandleWait(connected))
    ensures var step, t := HandleWait(connected), Apply(s, HandleWait(connected));
            && t.retired == s.retired + GivenUp(s, step)
            && Texts(t.saved) == WaitingAfter(s, step)
            && Texts(t.inflight) == SentAfter(s, step)
  {
    if s.saved != [] {
      assert Texts(Loaded(s.saved)) == Texts(s.saved)[1..];
    }
  }

  lemma UnexpectedGoes(s: State, i: nat)
    requires Enabled(s, TelemetryUnexpected(i))
    ensures var step, t := TelemetryUnexpected(i), Apply(s, TelemetryUnexpected(i));
            && t.retired == s.retired + GivenUp(s, step)
            && Texts(t.saved) == WaitingAfter(s, step)
            && Texts(t.inflight) == SentAfter(s, step)
  {
    assert Texts(Without(s.inflight, i)) == Without(Texts(s.inflight), i);
  }

  predicate IsClosing(step: Step) {
    step.ClearSaved? || step.DrainOne?
  }

  lemma ClosingGoes(s: State, step: Step)
    requires Enabled(s, step) && IsClosing(step)
    ensures var t := Apply(s, step);
            && t.retired == s.retired + GivenUp(s, step)
            && Texts(t.saved) == WaitingAfter(s, step)
            && Texts(t.inflight) == SentAfter(s, step)
  {
    if step.ClearSaved? {
      assert ClosedTexts(s.saved) == GivenUp(s, step);
    } else {
      assert ClosedTexts(Own(s.queue[step.i])) == GivenUp(s, step);
    }
  }

  predicate IsResending(step: Step) {
    step.AdmitResend? || step.ResendUndo? || step.Force? || step.ForceUndo?
  }

  lemma ResendingGoes(s: State, step: Step)
    requires Counted(s) && Enabled(s, step) && IsResending(step)
    ensures var t := Apply(s, step);
            && t.retired == s.retired + GivenUp(s, step)
            && t.saved == s.saved && t.inflight == s.inflight
  {
  }

  lemma OtherGoes(s: State, step: Step)
    requires !IsClosing(step) && !IsResending(step)
    requires !step.HandleMessage? && !step.HandleWait?
    requires !step.TelemetryError? && !step.TelemetryFinished? && !step.TelemetryUnexpected?
    ensures var t := Apply(s, step); t.retired == s.retired && t.saved == s.saved && t.inflight == s.inflight
  {
  }

  lemma RestGoes(s: State, step: Step)
    requires Counted(s) && Enabled(s, step)
    requires !step.HandleMessage? && !step.HandleWait?
    requires !step.TelemetryError? && !step.TelemetryFinished? && !step.TelemetryUnexpected?
    ensures var t := Apply(s, step);
            && t.retired == s.retired + GivenUp(s, step)
            && Texts(t.saved) == WaitingAfter(s, step)
            && Texts(t.inflight) == SentAfter(s, step)
  {
    if IsClosing(step) {
      ClosingGoes(s, step);
    } else if IsResending(step) {
      ResendingGoes(s, step);
    } else {
      OtherGoes(s, step);
    }
  }

  lemma TelemetryGoes(s: State, step: Step)
    requires Enabled(s, step) && (step.TelemetryError? || step.TelemetryFinished? || step.TelemetryUnexpected?)
    ensures var t := Apply(s, step);
            && t.retired == s.retired + GivenUp(s, step)
            && Texts(t.saved) == WaitingAfter(s, step)
            && Texts(t.inflight) == SentAfter(s, step)
  {
    match step
    case TelemetryError(i) => ErrorGoes(s, i);
    case TelemetryFinished(i) => FinishedGoes(s, i);
    case TelemetryUnexpected(i) => UnexpectedGoes(s, i);
  }

  lemma StepGoes(s: State, step: Step)
    requires Counted(s)
    ensures var t := Apply(s, step);
            && t.retired == s.retired + GivenUp(s, step)
            && Texts(t.saved) == WaitingAfter(s, step)
            && Texts(t.inflight) == SentAfter(s, step)
  {
    if !Enabled(s, step) {
      assert s.retired + [] == s.retired;
    } else if step.HandleMessage? {
      MessageGoes(s, step.connected, step.taken);
    } else if step.HandleWait? {
      WaitGoes(s, step.connected);
    } else if step.TelemetryError? || step.TelemetryFinished? || step.TelemetryUnexpected? {
      TelemetryGoes(s, step);
    } else {
      RestGoes(s, step);
    }
  }

  // ----------------------------------------------------------------------- runs

  /** In every run, a step saves, sends and gives up exactly these messages.  A message
      that has to wait is saved if and only if fewer than five wait, and otherwise given
      up as `SaveFull`; a message is given up as `Delivered` exactly when the agent
      finished it, and so on for each reason. */
  lemma {:induction false} WhatEachStepDoes(steps: seq<Step>, step: Step)
    ensures var s, t := Exec(steps), Exec(steps + [step]);
            && t.retired == s.retired + GivenUp(s, step)
            && Texts(t.saved) == WaitingAfter(s, step)
            && Texts(t.inflight) == SentAfter(s, step)
  {
    RunIsCounted(steps);
    StepGoes(Exec(steps), step);
    assert (steps + [step])[..|steps|] == steps;
  }

  /** The one reason that the sender of a message never hears of: exactly a message that
      has to wait while five do. */
  lemma {:induction false} WhenSavingIsGivenUp(steps: seq<Step>, step: Step, m: Message)
    ensures var s, t := Exec(steps), Exec(steps + [step]);
            t.retired == s.retired + [Retired(m, SaveFull)] <==> ToSave(s, step) == Some(m) && |s.saved| >= 5
  {
    WhatEachStepDoes(steps, step);
    var s := Exec(steps);
    assert s.retired + GivenUp(s, step) == s.retired + [Retired(m, SaveFull)]
           <==> GivenUp(s, step) == [Retired(m, SaveFull)] by {
      if s.retired + GivenUp(s, step) == s.retired + [Retired(m, SaveFull)] {
        assert GivenUp(s, step) == (s.retired + GivenUp(s, step))[|s.retired|..];
      }
    }
    ClosedIsNotFull(s, step, m);
  }

  lemma ClosedIsNotFull(s: State, step: Step, m: Message)
    ensures GivenUp(s, step) == [Retired(m, SaveFull)] <==> ToSave(s, step) == Some(m) && |s.saved| >= 5
  {
    if GivenUp(s, step) == [Retired(m, SaveFull)] {
      assert GivenUp(s, step)[0].reason == SaveFull;
    }
  }

  // ------------------------------------------------------- what the thread does next

  /** The command that the thread posts to itself for the one it handles. */
  datatype Post = Nothing | PostRegister | PostWait | PostResend(text: Message)

  function Posted(s: State, step: Step): Post {
    match step
    case HandleMessage(_, _) => if IsConnected(s, step) || s.registerRequested then Nothing else PostRegister
    case HandleRegister(ok) => if s.client then Nothing else if ok then PostWait else PostRegister
    case HandleWait(connected) =>
      if !connected then PostWait else if s.saved == [] then Nothing else PostResend(s.saved[0].text)
    case _ => Nothing
  }

  predicate IsPost(cmd: Cmd, post: Post) {
    match post
    case Nothing => false
    case PostRegister => cmd == Register
    case PostWait => cmd == Wait
    case PostResend(text) => cmd.Resend? && cmd.str.text == text
  }

  predicate IsHandling(step: Step) {
    step.HandleMessage? || step.HandleRegister? || step.HandleWait?
  }

  lemma HandledMeansForcing(s: State, step: Step)
    requires Enabled(s, step) && IsHandling(step)
    ensures var t := Apply(s, step);
            && t.queue == s.queue
            && (if Posted(s, step) == Nothing then t.pc == Receiving || t.pc == Processing
                else t.pc.Forcing? && IsPost(t.pc.cmd, Posted(s, step)))
            && t.registerRequested == (if step.HandleWait? && step.connected then false
                                       else s.registerRequested || (step.HandleMessage? && !IsConnected(s, step)))
            && t.client == (s.client || (step.HandleRegister? && step.ok))
  {
  }

  lemma ForcingPosts(s: State)
    requires s.pc.Forcing? && s.cnt < QUEUE_SIZE
    ensures var t := Apply(Apply(s, Force), ForcePush);
            t.pc == Receiving && t.queue == s.queue + [s.pc.cmd] && t.cnt == s.cnt + 1
  {
  }

  lemma ExecNext(steps: seq<Step>, step: Step)
    ensures Exec(steps + [step]) == Apply(Exec(steps), step)
  {
    assert (steps + [step])[..|steps|] == steps;
  }

  lemma ExecThree(steps: seq<Step>, a: Step, b: Step, c: Step)
    ensures Exec(steps + [a] + [b] + [c]) == Apply(Apply(Apply(Exec(steps), a), b), c)
  {
    ExecNext(steps, a);
    ExecNext(steps + [a], b);
    ExecNext(steps + [a] + [b], c);
  }

  /** From an unsent message to its resend, in every run: what cannot be sent makes the
      thread ask for a client, then wait for the connection, and then send the oldest
      saved message; there is always a place for the command it posts to itself. */
  lemma {:induction false} ThreadAsksAgain(steps: seq<Step>, step: Step)
    requires Enabled(Exec(steps), step) && IsHandling(step) && Posted(Exec(steps), step) != Nothing
    ensures var s, t := Exec(steps), Exec(steps + [step] + [Force] + [ForcePush]);
            && t.pc == Receiving && |t.queue| == |s.queue| + 1
            && t.queue[..|s.queue|] == s.queue && IsPost(t.queue[|s.queue|], Posted(s, step))
  {
    var s := Exec(steps);
    assert (steps + [step])[..|steps|] == steps;
    HandledMeansForcing(s, step);
    ReservedPlacesSuffice(steps + [step]);
    ForcingPosts(Apply(s, step));
    ExecThree(steps, step, Force, ForcePush);
  }

  lemma DeliveryLoads(s: State, i: nat)
    requires Enabled(s, TelemetryFinished(i)) && s.saved != []
    ensures var t := Apply(s, TelemetryFinished(i));
            && t.pc.Resending? && t.pc.str.text == s.saved[0].text && t.cnt == s.cnt && t.queue == s.queue
            && t.retired == s.retired + [Retired(s.inflight[i].text, Delivered)]
  {
  }

  lemma ResendingPosts(s: State)
    requires s.pc.Resending?
    ensures var t := Apply(Apply(s, AdmitResend), ResendPush);
            if s.cnt < 10 then t.queue == s.queue + [Resend(s.pc.str)]
            else t.queue == s.queue && t.retired == s.retired + [Retired(s.pc.str.text, ResendRefused)]
  {
  }

  /** After a delivery the oldest saved message is posted again if fewer than ten
      commands are counted, and otherwise given up. */
  lemma {:induction false} DeliveryResendsNext(steps: seq<Step>, i: nat)
    requires Enabled(Exec(steps), TelemetryFinished(i)) && Exec(steps).saved != []
    ensures var s, t := Exec(steps), Exec(steps + [TelemetryFinished(i)] + [AdmitResend] + [ResendPush]);
            if s.cnt < 10 then
              && |t.queue| == |s.queue| + 1 && t.queue[..|s.queue|] == s.queue
              && IsPost(t.queue[|s.queue|], PostResend(s.saved[0].text))
            else
              t.queue == s.queue
              && t.retired == s.retired + [Retired(s.inflight[i].text, Delivered)]
                              + [Retired(s.saved[0].text, ResendRefused)]
  {
    ExecThree(steps, TelemetryFinished(i), AdmitResend, ResendPush);
    DeliveryLoads(Exec(steps), i);
    ResendingPosts(Apply(Exec(steps), TelemetryFinished(i)));
  }

  /** A caller is let in if and only if fewer than ten commands are in the queue or on
      their way in or out; else its string is freed at once. */
  lemma {:induction false} WhenCallersAreAdmitted(steps: seq<Step>, text: Message)
    ensures var s, t := Exec(steps), Exec(steps + [SendElog(text)]);
            var str := Str(s.allocations, text);
            if |s.queue| + Underway(s) < 10
            then t.senders == s.senders + [Sender(str, false)] && t.freed == s.freed
            else t.senders == s.senders && t.freed == s.freed + [str]
  {
    RunIsCounted(steps);
    assert (steps + [SendElog(text)])[..|steps|] == steps;
  }

  // ------------------------------------------------------------ from end to end

  /** A command in the queue that the thread receives is the one it handles, and its
      place is free again. */
  lemma CommandReachesHandler(s: State, i: nat)
    requires Enabled(s, Receive(i))
    ensures Apply(Apply(s, Receive(i)), CountOut)
         == s.(queue := Without(s.queue, i), cnt := s.cnt - 1, pc := Handling(s.queue[i]))
  {
  }

  lemma LastIsTaken<T>(s: seq<T>, x: T)
    ensures Without(s + [x], |s|) == s
  {
  }

  lemma MessageIsPushed(s: State, text: Message)
    requires s.cnt < QUEUE_NUM
    ensures Apply(Apply(s, SendElog(text)), Push(|s.senders|))
         == s.(allocations := s.allocations + 1, cnt := s.cnt + 1, accepted := s.accepted + [text],
               queue := s.queue + [Send(Str(s.allocations, text))])
  {
    LastIsTaken(s.senders, Sender(Str(s.allocations, text), false));
  }

  lemma MessageIsSent(s: State, str: Str)
    requires s.pc == Handling(Send(str)) && s.client && s.saved == []
    ensures Apply(Apply(Apply(s, HandleMessage(true, true)), TelemetryFinished(|s.inflight|)), LeaveProcessing)
         == s.(pc := Receiving, freed := s.freed + [str], retired := s.retired + [Retired(str.text, Delivered)])
  {
    LastIsTaken(s.inflight, str);
  }

  lemma ExecSix(steps: seq<Step>, a: Step, b: Step, c: Step, d: Step, e: Step, f: Step)
    ensures Exec(steps + [a] + [b] + [c] + [d] + [e] + [f])
         == Apply(Apply(Apply(Apply(Apply(Apply(Exec(steps), a), b), c), d), e), f)
  {
    ExecThree(steps, a, b, c);
    ExecThree(steps + [a] + [b] + [c], d, e, f);
  }

  /** From the caller to the agent and back, in every run: with a client, nothing saved and
      fewer than ten commands counted, a message posted while the thread waits can be
      delivered, which leaves everything but the history as it was. */
  lemma {:induction false} MessageReachesAgent(steps: seq<Step>, text: Message)
    requires Exec(steps).pc == Receiving && Exec(steps).client && Exec(steps).saved == []
    requires |Exec(steps).queue| + Underway(Exec(steps)) < 10
    ensures var s := Exec(steps);
            Exec(steps + [SendElog(text)] + [Push(|s.senders|)] + [Receive(|s.queue|)] + [CountOut]
                       + [HandleMessage(true, true)] + [TelemetryFinished(|s.inflight|)] + [LeaveProcessing])
            == s.(allocations := s.allocations + 1, freed := s.freed + [Str(s.allocations, text)],
                  accepted := s.accepted + [text], retired := s.retired + [Retired(text, Delivered)])
  {
    var s, str := Exec(steps), Str(Exec(steps).allocations, text);
    RunIsCounted(steps);
    var posted := steps + [SendElog(text)] + [Push(|s.senders|)] + [Receive(|s.queue|)];
    ExecSix(steps, SendElog(text), Push(|s.senders|), Receive(|s.queue|), CountOut,
            HandleMessage(true, true), TelemetryFinished(|s.inflight|));
    ExecNext(posted + [CountOut] + [HandleMessage(true, true)] + [TelemetryFinished(|s.inflight|)], LeaveProcessing);
    MessageIsPushed(s, text);
    var t := Apply(Apply(s, SendElog(text)), Push(|s.senders|));
    CommandReachesHandler(t, |s.queue|);
    LastIsTaken(s.queue, Send(str));
    MessageIsSent(Apply(Apply(t, Receive(|s.queue|)), CountOut), str);
  }

  lemma DestroyIsPushed(s: State)
    requires s.closer == Open && s.cnt < QUEUE_SIZE
    ensures Apply(Apply(s, PostDestroy), DestroyPush)
         == s.(cnt := s.cnt + 1, closer := Joining, queue := s.queue + [Destroy])
  {
  }

  lemma DestroyEndsThread(s: State)
    requires s.pc == Handling(Destroy) && s.closer == Joining
    ensures Apply(Apply(s, HandleDestroy), ClearSaved)
         == s.(pc := Exited, closer := Draining, saved := [], freed := s.freed + s.saved,
               retired := s.retired + ClosedTexts(s.saved))
  {
  }

  lemma DestroyIsTaken(s: State)
    requires s.pc == Receiving && s.closer == Open && s.cnt < QUEUE_SIZE
    ensures Apply(Apply(Apply(Apply(s, PostDestroy), DestroyPush), Receive(|s.queue|)), CountOut)
         == s.(pc := Handling(Destroy), closer := Joining)
  {
    DestroyIsPushed(s);
    CommandReachesHandler(Apply(Apply(s, PostDestroy), DestroyPush), |s.queue|);
    LastIsTaken(s.queue, Destroy);
  }

  lemma DestroyIsHandled(steps: seq<Step>)
    requires Exec(steps).pc == Receiving && Exec(steps).closer == Open
    ensures var s := Exec(steps);
            Exec(steps + [PostDestroy] + [DestroyPush] + [Receive(|s.queue|)] + [CountOut])
            == s.(pc := Handling(Destroy), closer := Joining)
  {
    var s := Exec(steps);
    ReservedPlacesSuffice(steps);
    DestroyIsTaken(s);
    ExecThree(steps, PostDestroy, DestroyPush, Receive(|s.queue|));
    ExecNext(steps + [PostDestroy] + [DestroyPush] + [Receive(|s.queue|)], CountOut);
  }

  /** Closing in every run: the destroy command always finds a place, a thread that waits
      can take it, ends, and what was saved is given up. */
  lemma {:induction false} ClosingEndsThread(steps: seq<Step>)
    requires Exec(steps).pc == Receiving && Exec(steps).closer == Open
    ensures var s := Exec(steps);
            Exec(steps + [PostDestroy] + [DestroyPush] + [Receive(|s.queue|)] + [CountOut]
                       + [HandleDestroy] + [ClearSaved])
            == s.(pc := Exited, closer := Draining, saved := [], freed := s.freed + s.saved,
                  retired := s.retired + ClosedTexts(s.saved))
  {
    var taken := steps + [PostDestroy] + [DestroyPush] + [Receive(|Exec(steps).queue|)] + [CountOut];
    DestroyIsHandled(steps);
    DestroyEndsThread(Exec(taken));
    ExecNext(taken, HandleDestroy);
    ExecNext(taken + [HandleDestroy], ClearSaved);
  }
}

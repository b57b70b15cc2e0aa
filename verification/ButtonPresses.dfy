/**
 Whole runs of the button manager: how long a button counts as held, what a press of
 any length runs, and how often a press runs the pressed callbacks although the button
 changes its state before the locked section that runs them.
 */
module ButtonPresses {
  import opened Common
  import opened ButtonEngine
  import opened ButtonProperties

  /** The step enables the handle. */
  ghost predicate Enables(s: State, step: Step, handle: nat) {
    var i := FindFrame(s.frames, handle);
    step == SetEnabled(handle, true) && i < |s.frames| && !s.frames[i].enabled
  }

  lemma StepKeepsHandles(s: State, step: Step)
    requires HandlesOk(s)
    ensures HandlesOk(Apply(s, step))
  {
    match step
    case Create => CreateKeepsHandles(s);
    case Destroy(handle) => DestroyKeepsHandles(s, handle);
    case Arrive(_, _) =>
    case RunEvent => if IsPending(s) { EventKeepsHandles(s); }
    case _ => ChangeKeepsHandles(s, step);
  }

  lemma ChangeKeepsHandles(s: State, step: Step)
    requires HandlesOk(s) && (step.Add? || step.RemoveAll? || step.SetEnabled?)
    ensures HandlesOk(Apply(s, step))
  {
    ChangesOneFrame(s, step);
    var i, t := FindFrame(s.frames, step.handle), Apply(s, step);
    if i < |s.frames| {
      ReplaceElsewhere(s, i, t.frames[i], step.handle);
    }
  }

  lemma {:induction false} RunKeepsHandles(limits: Limits, buttons: seq<Button>, steps: seq<Step>)
    ensures HandlesOk(Exec(Start(limits, buttons), steps))
    decreases |steps|
  {
    if steps != [] {
      RunKeepsHandles(limits, buttons, steps[..|steps| - 1]);
      StepKeepsHandles(Exec(Start(limits, buttons), steps[..|steps| - 1]), steps[|steps| - 1]);
    }
  }

  // ------------------------------------------------- when every run is structured

  /** No handle has an entry, since none can be created or no button is known. */
  ghost predicate NothingRegistered(s: State) {
    && (s.limits.handles == 0 || s.buttons == [])
    && |s.frames| <= s.limits.handles
    && forall i :: 0 <= i < |s.frames| ==> s.frames[i].data == []
  }

  lemma EventRegistersNothing(s: State)
    requires NothingRegistered(s) && IsPending(s)
    ensures NothingRegistered(Ran(s))
  {
  }

  lemma ChangeRegistersNothing(s: State, step: Step)
    requires NothingRegistered(s) && (step.Add? || step.RemoveAll? || step.SetEnabled?)
    ensures NothingRegistered(Apply(s, step))
  {
    var i, t := FindFrame(s.frames, step.handle), Apply(s, step);
    ChangesOneFrame(s, step);
    if i < |s.frames| {
      assert s.buttons == [] && s.frames[i].data == [];
      assert t.frames[i].data == [];
    }
  }

  lemma StepRegistersNothing(s: State, step: Step)
    requires NothingRegistered(s)
    ensures NothingRegistered(Apply(s, step))
  {
    match step
    case Create =>
    case Destroy(_) =>
    case Arrive(_, _) =>
    case RunEvent => if IsPending(s) { EventRegistersNothing(s); }
    case _ => ChangeRegistersNothing(s, step);
  }

  lemma {:induction false} RunRegistersNothing(limits: Limits, buttons: seq<Button>, steps: seq<Step>)
    requires limits.handles == 0 || buttons == []
    ensures NothingRegistered(Exec(Start(limits, buttons), steps))
    decreases |steps|
  {
    if steps != [] {
      RunRegistersNothing(limits, buttons, steps[..|steps| - 1]);
      StepRegistersNothing(Exec(Start(limits, buttons), steps[..|steps| - 1]), steps[|steps| - 1]);
    }
  }

  /** All runs keep the structure if and only if lists may hold a callback or nothing
      can be registered at all. */
  lemma {:induction false} WhenRunsAreStructured(limits: Limits, buttons: seq<Button>)
    ensures (forall steps :: Structured(Exec(Start(limits, buttons), steps)))
            <==> limits.callbacks >= 1 || limits.handles == 0 || buttons == []
  {
    if limits.callbacks >= 1 || limits.handles == 0 || buttons == [] {
      forall steps ensures Structured(Exec(Start(limits, buttons), steps)) {
        if limits.callbacks >= 1 {
          RunIsStructured(limits, buttons, steps);
        } else {
          RunKeepsHandles(limits, buttons, steps);
          RunRegistersNothing(limits, buttons, steps);
        }
      }
    } else {
      RefusedRegistrationIsUnstructured(limits, buttons, Callback(0, 0));
    }
  }

  // --------------------------------------------------- enabled handles, backwards

  lemma CreatedIsDisabled(s: State, handle: nat, button: nat)
    requires HandlesOk(s) && View(CreateHandle(s).0, handle, button).Some?
    ensures View(s, handle, button).Some?
  {
    var i := FindFrame(CreateHandle(s).0.frames, handle);
    if i < |s.frames| {
      FrameIsFound(s, i);
    }
  }

  lemma DestroyedIsGone(s: State, other: nat, handle: nat, button: nat)
    requires HandlesOk(s) && View(DestroyHandle(s, other).0, handle, button).Some?
    ensures View(s, handle, button).Some? && other != handle
  {
    var i, t := FindFrame(s.frames, other), DestroyHandle(s, other).0;
    var k := FindFrame(t.frames, handle);
    if i < |s.frames| {
      assert t.frames[k] == s.frames[if k < i then k else k + 1];
      FrameIsFound(s, if k < i then k else k + 1);
    }
  }

  lemma ChangedWasEnabled(s: State, step: Step, handle: nat, button: nat)
    requires HandlesOk(s) && !Enables(s, step, handle) && View(Apply(s, step), handle, button).Some?
    requires step.Add? || step.RemoveAll? || step.SetEnabled?
    ensures View(s, handle, button).Some? && Spares(step, handle)
  {
    var i, t := FindFrame(s.frames, step.handle), Apply(s, step);
    ChangesOneFrame(s, step);
    if i < |s.frames| {
      ReplaceElsewhere(s, i, t.frames[i], handle);
      if step.handle == handle {
        assert t.frames[i].enabled;
      } else {
        ViewElsewhere(s, i, t.frames[i], t.calls, handle, button);
      }
    }
  }

  lemma ExecutedWasEnabled(s: State, handle: nat, button: nat)
    requires HandlesOk(s) && IsPending(s) && View(Ran(s), handle, button).Some?
    ensures View(s, handle, button).Some?
  {
    var i, b := FindFrame(Ran(s).frames, handle), s.buttons[s.event.value];
    FrameIsFound(s, i);
    ExecuteKeepsPlace(s.frames[i], b.id, b.state, button);
  }

  /** A handle that is enabled after a step, and not by it, was so before. */
  lemma WasEnabled(s: State, step: Step, handle: nat, button: nat)
    requires HandlesOk(s) && !Enables(s, step, handle) && View(Apply(s, step), handle, button).Some?
    ensures View(s, handle, button).Some? && Spares(step, handle)
  {
    match step
    case Create => CreatedIsDisabled(s, handle, button);
    case Destroy(other) => DestroyedIsGone(s, other, handle, button);
    case Arrive(_, _) =>
    case RunEvent => if IsPending(s) { ExecutedWasEnabled(s, handle, button); }
    case _ => ChangedWasEnabled(s, step, handle, button);
  }

  // ------------------------------------------------------------- ticks in every run

  /** The long-press ticks of the button that the run has processed since the handle
      was last enabled or the button last released, whichever was later. */
  ghost function TicksSince(s: State, handle: nat, button: nat, steps: seq<Step>): nat
    decreases |steps|
  {
    if steps == [] then 0
    else
      var init, last := steps[..|steps| - 1], steps[|steps| - 1];
      var t := Exec(s, init);
      if IsEventOf(t, last, button, LongPressed) then TicksSince(s, handle, button, init) + 1
      else if IsEventOf(t, last, button, Released) || Enables(t, last, handle) then 0
      else TicksSince(s, handle, button, init)
  }

  lemma TicksGoOn(s: State, step: Step, handle: nat, button: nat)
    requires Structured(s) && View(Apply(s, step), handle, button).Some?
    ensures if IsEventOf(s, step, button, Released) || Enables(s, step, handle)
            then View(Apply(s, step), handle, button).value.ticks == 0
            else
              && View(s, handle, button).Some?
              && View(Apply(s, step), handle, button).value.ticks
                 == View(s, handle, button).value.ticks + if IsEventOf(s, step, button, LongPressed) then 1 else 0
  {
    if Enables(s, step, handle) {
      EnabledAtZero(s, handle, button);
    } else {
      WasEnabled(s, step, handle, button);
      StepSeen(s, step, handle, button, LongPressed);
    }
  }

  /** In every run an enabled handle's counter is the number of these ticks. */
  lemma {:induction false} TicksAreCounted(limits: Limits, buttons: seq<Button>, steps: seq<Step>,
                                           handle: nat, button: nat)
    requires limits.callbacks >= 1
    requires View(Exec(Start(limits, buttons), steps), handle, button).Some?
    ensures View(Exec(Start(limits, buttons), steps), handle, button).value.ticks
         == TicksSince(Start(limits, buttons), handle, button, steps)
    decreases |steps|
  {
    if steps != [] {
      var init, last := steps[..|steps| - 1], steps[|steps| - 1];
      var s := Exec(Start(limits, buttons), init);
      RunIsStructured(limits, buttons, init);
      TicksGoOn(s, last, handle, button);
      if View(s, handle, button).Some? {
        TicksAreCounted(limits, buttons, init, handle, button);
      }
    }
  }

  lemma ViewIsOk(s: State, handle: nat, button: nat)
    requires Structured(s) && View(s, handle, button).Some?
    ensures DataOk(s.limits, View(s, handle, button).value)
  {
  }

  lemma ExecSnoc(s: State, steps: seq<Step>, step: Step)
    ensures Exec(s, steps + [step]) == Apply(Exec(s, steps), step)
  {
    assert (steps + [step])[..|steps|] == steps;
  }

  lemma {:induction false} ExecConcat(s: State, a: seq<Step>, b: seq<Step>)
    ensures Exec(s, a + b) == Exec(Exec(s, a), b)
    decreases |b|
  {
    if b == [] {
      assert a + b == a;
    } else {
      ExecConcat(s, a, b[..|b| - 1]);
      assert (a + b)[..|a + b| - 1] == a + b[..|b| - 1];
    }
  }

  /** A whole press, in every run: from the enabling of the handle or the last release,
      to the release.  A long-press callback for `second` seconds has run exactly once
      if that many ticks arrived, else not at all; the release runs, in the order of
      registration, exactly the callbacks whose window holds the number of ticks. */
  lemma {:induction false} PressInEveryRun(limits: Limits, buttons: seq<Button>, before: seq<Step>,
                                           press: seq<Step>, release: Step, handle: nat, button: nat, i: nat)
    requires limits.callbacks >= 1
    requires var s := Exec(Start(limits, buttons), before);
             && View(s, handle, button).Some?
             && TicksSince(Start(limits, buttons), handle, button, before) == 0
             && Pressing(s, handle, button, press)
             && IsEventOf(Exec(s, press), release, button, Released)
    ensures var s, t := Exec(Start(limits, buttons), before), Exec(Start(limits, buttons), before + press + [release]);
            var d, n := View(s, handle, button).value, Ticks(s, button, press);
            var ran := ReleasedDue(d.released, n);
            && (i < |d.longPressed| ==>
                 multiset(Log(t.calls, handle, button, LongPressed))[i]
                 == multiset(Log(s.calls, handle, button, LongPressed))[i]
                    + if d.longPressed[i].second <= n then 1 else 0)
            && Log(t.calls, handle, button, Released) == Log(s.calls, handle, button, Released) + ran
            && Increasing(ran)
            && (i in ran <==>
                 i < |d.released| && d.released[i].min <= n && (d.released[i].max == 0 || n <= d.released[i].max))
  {
    var s := Exec(Start(limits, buttons), before);
    RunIsStructured(limits, buttons, before);
    TicksAreCounted(limits, buttons, before, handle, button);
    ViewIsOk(s, handle, button);
    assert before + press + [release] == before + (press + [release]);
    ExecConcat(Start(limits, buttons), before, press + [release]);
    ReleaseRunsWindow(s, handle, button, press, release, i);
    ReleaseRunsNoLongPress(s, handle, button, press, release);
    if i < |View(s, handle, button).value.longPressed| {
      assert ParamsOk(OnLongPressed(View(s, handle, button).value.longPressed[i].second));
      LongPressRunsOnce(s, handle, button, press, i);
    }
  }

  lemma ReleaseRunsNoLongPress(s: State, handle: nat, button: nat, press: seq<Step>, release: Step)
    requires HandlesOk(s) && View(s, handle, button).Some? && View(s, handle, button).value.ticks == 0
    requires Pressing(s, handle, button, press) && IsEventOf(Exec(s, press), release, button, Released)
    ensures Log(Exec(s, press + [release]).calls, handle, button, LongPressed)
         == Log(Exec(s, press).calls, handle, button, LongPressed)
  {
    PressIsLogged(s, handle, button, press);
    StepSeen(Exec(s, press), release, handle, button, LongPressed);
    assert (press + [release])[..|press|] == press;
  }

  // -------------------------------------------------- how often a press runs them

  /** How often entry `i` of the pressed callbacks has run. */
  ghost function Runs(s: State, handle: nat, button: nat, i: nat): nat {
    multiset(Log(s.calls, handle, button, Pressed))[i]
  }

  /** Some step of the run enables the handle. */
  ghost predicate SomeEnables(s: State, handle: nat, steps: seq<Step>)
    decreases |steps|
  {
    steps != [] &&
    (var init := steps[..|steps| - 1];
     SomeEnables(s, handle, init) || Enables(Exec(s, init), steps[|steps| - 1], handle))
  }

  lemma {:induction false} NumbersOnce(n: nat, i: nat)
    requires i < n
    ensures multiset(Numbers(n))[i] == 1
    decreases n
  {
    var init := Numbers(n - 1);
    assert Numbers(n) == init + [n - 1];
    if i < n - 1 {
      NumbersOnce(n - 1, i);
    } else {
      assert i !in init;
    }
  }

  /** Enabling a handle runs the pressed callbacks of a button that is held. */
  lemma {:induction false} HeldRuns(buttons: seq<Button>, f: Frame, j: nat, i: nat)
    requires j < |buttons| && IsHeld(buttons[j].state)
    requires var k := Find(f.data, buttons[j].id); k < |f.data| && i < |f.data[k].pressed|
    ensures multiset(Log(HeldCalls(buttons, f), f.handle, buttons[j].id, Pressed))[i] >= 1
    decreases |buttons|
  {
    var init, b, button := buttons[..|buttons| - 1], buttons[|buttons| - 1], buttons[j].id;
    var k := Find(f.data, b.id);
    var last := if IsHeld(b.state) && k < |f.data|
                then Tagged(f.handle, b.id, Pressed, Numbers(|f.data[k].pressed|)) else [];
    LogConcat(HeldCalls(init, f), last, f.handle, button, Pressed);
    CountConcat(Log(HeldCalls(init, f), f.handle, button, Pressed), Log(last, f.handle, button, Pressed), i);
    if j < |buttons| - 1 {
      HeldRuns(init, f, j, i);
    } else {
      LogTagged(f.handle, b.id, Pressed, Numbers(|f.data[k].pressed|), f.handle, button, Pressed);
      NumbersOnce(|f.data[k].pressed|, i);
    }
  }

  lemma EnablingRuns(s: State, handle: nat, j: nat, i: nat)
    requires HandlesOk(s) && Enables(s, SetEnabled(handle, true), handle)
    requires j < |s.buttons| && IsHeld(s.buttons[j].state)
    requires var v := View(SetCallbackExecutableState(s, handle, true).0, handle, s.buttons[j].id);
             v.Some? && i < |v.value.pressed|
    ensures Runs(SetCallbackExecutableState(s, handle, true).0, handle, s.buttons[j].id, i)
         >= Runs(s, handle, s.buttons[j].id, i) + 1
  {
    var n, button := FindFrame(s.frames, handle), s.buttons[j].id;
    var f := s.frames[n].(enabled := true);
    ReplaceElsewhere(s, n, f, handle);
    LogConcat(s.calls, HeldCalls(s.buttons, f), handle, button, Pressed);
    CountConcat(Log(s.calls, handle, button, Pressed), Log(HeldCalls(s.buttons, f), handle, button, Pressed), i);
    HeldRuns(s.buttons, f, j, i);
  }

  /** Only running an event takes it away or makes room for another. */
  lemma GapStepKeepsEvent(s: State, step: Step)
    requires IsPending(s) && step != RunEvent
    ensures Apply(s, step).event == s.event && Apply(s, step).buttons == s.buttons
  {
  }

  lemma CallsGrow(s: State, step: Step)
    requires !step.RunEvent?
    ensures s.calls <= Apply(s, step).calls
  {
  }

  lemma GapStepGrows(s: State, step: Step, handle: nat, button: nat, i: nat)
    requires step != RunEvent
    ensures Runs(Apply(s, step), handle, button, i) >= Runs(s, handle, button, i)
  {
    CallsGrow(s, step);
    var t := Apply(s, step);
    var more := t.calls[|s.calls|..];
    assert t.calls == s.calls + more;
    LogConcat(s.calls, more, handle, button, Pressed);
    CountConcat(Log(s.calls, handle, button, Pressed), Log(more, handle, button, Pressed), i);
  }

  /** What has run in the gap between the arrival of a press in `s` and `t`. */
  ghost predicate InGap(s: State, t: State, handle: nat, i: nat, enabled: bool)
    requires IsPending(s)
  {
    var button := s.buttons[s.event.value].id;
    && HandlesOk(t) && t.event == s.event && t.buttons == s.buttons
    && Runs(t, handle, button, i) >= Runs(s, handle, button, i)
    && (View(t, handle, button).Some? && i < |View(t, handle, button).value.pressed| ==>
         if enabled then Runs(t, handle, button, i) >= Runs(s, handle, button, i) + 1
         else Runs(t, handle, button, i) == Runs(s, handle, button, i))
  }

  lemma EnablingInGap(s: State, t: State, handle: nat, i: nat, enabled: bool)
    requires IsPending(s) && s.buttons[s.event.value].state == Pressed && InGap(s, t, handle, i, enabled)
    requires Enables(t, SetEnabled(handle, true), handle)
    requires var v := View(Apply(t, SetEnabled(handle, true)), handle, s.buttons[s.event.value].id);
             v.Some? && i < |v.value.pressed|
    ensures var button := s.buttons[s.event.value].id;
            Runs(Apply(t, SetEnabled(handle, true)), handle, button, i) >= Runs(s, handle, button, i) + 1
  {
    EnablingRuns(t, handle, s.event.value, i);
  }

  lemma GapGoesOn(s: State, t: State, step: Step, handle: nat, i: nat, enabled: bool)
    requires IsPending(s) && s.buttons[s.event.value].state == Pressed && step != RunEvent
    requires InGap(s, t, handle, i, enabled)
    ensures InGap(s, Apply(t, step), handle, i, enabled || Enables(t, step, handle))
  {
    var button, u := s.buttons[s.event.value].id, Apply(t, step);
    StepKeepsHandles(t, step);
    GapStepKeepsEvent(t, step);
    GapStepGrows(t, step, handle, button, i);
    if View(u, handle, button).Some? && i < |View(u, handle, button).value.pressed| {
      if Enables(t, step, handle) {
        EnablingInGap(s, t, handle, i, enabled);
      } else {
        WasEnabled(t, step, handle, button);
        StepSeen(t, step, handle, button, Pressed);
      }
    }
  }

  lemma {:induction false} GapRuns(s: State, gap: seq<Step>, handle: nat, i: nat)
    requires HandlesOk(s) && IsPending(s) && s.buttons[s.event.value].state == Pressed && RunEvent !in gap
    ensures InGap(s, Exec(s, gap), handle, i, SomeEnables(s, handle, gap))
    decreases |gap|
  {
    if gap != [] {
      var init, last := gap[..|gap| - 1], gap[|gap| - 1];
      GapRuns(s, init, handle, i);
      GapGoesOn(s, Exec(s, init), last, handle, i, SomeEnables(s, handle, init));
    }
  }

  lemma EventRunsPressed(s: State, handle: nat, i: nat)
    requires HandlesOk(s) && IsPending(s) && s.buttons[s.event.value].state == Pressed
    requires var v := View(s, handle, s.buttons[s.event.value].id); v.Some? && i < |v.value.pressed|
    ensures var button := s.buttons[s.event.value].id;
            Runs(Ran(s), handle, button, i) == Runs(s, handle, button, i) + 1
  {
    var button := s.buttons[s.event.value].id;
    var n := |View(s, handle, button).value.pressed|;
    EventIsLogged(s, handle, button, Pressed);
    CountConcat(Log(s.calls, handle, button, Pressed), Numbers(n), i);
    NumbersOnce(n, i);
  }

  lemma PressEnds(s: State, t: State, handle: nat, i: nat, enabled: bool)
    requires IsPending(s) && s.buttons[s.event.value].state == Pressed && InGap(s, t, handle, i, enabled)
    requires var v := View(t, handle, s.buttons[s.event.value].id); v.Some? && i < |v.value.pressed|
    ensures var button := s.buttons[s.event.value].id;
            && Runs(Ran(t), handle, button, i) >= Runs(s, handle, button, i) + 1
            && (Runs(Ran(t), handle, button, i) == Runs(s, handle, button, i) + 1 <==> !enabled)
  {
    EventRunsPressed(t, handle, i);
  }

  lemma PressFromArrival(s: State, gap: seq<Step>, handle: nat, i: nat)
    requires HandlesOk(s) && IsPending(s) && s.buttons[s.event.value].state == Pressed && RunEvent !in gap
    requires var v := View(Exec(s, gap), handle, s.buttons[s.event.value].id); v.Some? && i < |v.value.pressed|
    ensures var button, u := s.buttons[s.event.value].id, Exec(s, gap + [RunEvent]);
            && Runs(u, handle, button, i) >= Runs(s, handle, button, i) + 1
            && (Runs(u, handle, button, i) == Runs(s, handle, button, i) + 1 <==> !SomeEnables(s, handle, gap))
  {
    var t := Exec(s, gap);
    GapRuns(s, gap, handle, i);
    PressEnds(s, t, handle, i, SomeEnables(s, handle, gap));
    ExecSnoc(s, gap, RunEvent);
    assert Apply(t, RunEvent) == Ran(t);
  }

  /** A press, in every run: the button changes its state, anything may happen in
      between, and then the callbacks run.  Each pressed callback of a handle that is
      enabled by then runs, and it runs exactly once if and only if the handle was not
      enabled in between, since enabling already finds the button held. */
  lemma {:induction false} PressRunsOnce(limits: Limits, buttons: seq<Button>, before: seq<Step>, j: nat,
                                         gap: seq<Step>, handle: nat, i: nat)
    requires var s := Exec(Start(limits, buttons), before); s.event == None && j < |s.buttons|
    requires RunEvent !in gap
    requires var s := Apply(Exec(Start(limits, buttons), before), Arrive(j, Pressed));
             var v := View(Exec(s, gap), handle, s.buttons[j].id);
             v.Some? && i < |v.value.pressed|
    ensures var s := Exec(Start(limits, buttons), before);
            var u := Exec(Start(limits, buttons), before + [Arrive(j, Pressed)] + gap + [RunEvent]);
            var button := s.buttons[j].id;
            && Runs(u, handle, button, i) >= Runs(s, handle, button, i) + 1
            && (Runs(u, handle, button, i) == Runs(s, handle, button, i) + 1
                <==> !SomeEnables(Apply(s, Arrive(j, Pressed)), handle, gap))
  {
    var s, arrival := Exec(Start(limits, buttons), before), before + [Arrive(j, Pressed)];
    RunKeepsHandles(limits, buttons, before);
    assert arrival[..|before|] == before;
    PressFromArrival(Apply(s, Arrive(j, Pressed)), gap, handle, i);
    assert arrival + gap + [RunEvent] == arrival + (gap + [RunEvent]);
    ExecConcat(Start(limits, buttons), arrival, gap + [RunEvent]);
  }

  lemma OneRegistered(s: State, callback: Callback)
    requires s.limits == Limits(1, 1) && s.buttons == [Button(7, Unknown)] && s.frames == [Frame(0, false, [])]
    ensures Register(s, 0, 7, OnPressed, callback).0
         == s.(frames := [Frame(0, false, [HandleData(7, 0, [callback], [], [])])])
  {
    assert s.buttons[0].id == 7;
    assert FindFrame(s.frames, 0) == 0 && Find([], 7) == 0;
    assert Prepared([], 7) == [NewData(7)] && Find([NewData(7)], 7) == 0;
    assert Added(NewData(7), OnPressed, callback) == HandleData(7, 0, [callback], [], []);
    var data := [HandleData(7, 0, [callback], [], [])];
    assert [NewData(7)][0 := data[0]] == data;
    assert s.frames[0 := Frame(0, false, data)] == [Frame(0, false, data)];
  }

  lemma OneHeld(callback: Callback)
    ensures HeldCalls([Button(7, Pressed)], Frame(0, true, [HandleData(7, 0, [callback], [], [])]))
         == [Call(0, 7, Pressed, 0)]
  {
    var data := [HandleData(7, 0, [callback], [], [])];
    assert [Button(7, Pressed)][..0] == [] && Find(data, 7) == 0;
  }

  lemma OneEvent(callback: Callback)
    ensures AllCalls([Frame(0, true, [HandleData(7, 0, [callback], [], [])])], 7, Pressed) == [Call(0, 7, Pressed, 0)]
  {
    var frame := Frame(0, true, [HandleData(7, 0, [callback], [], [])]);
    assert [frame][..0] == [] && Find(frame.data, 7) == 0;
    assert FrameCalls(frame, 7, Pressed) == [Call(0, 7, Pressed, 0)];
    assert AllCalls([frame], 7, Pressed) == AllCalls([], 7, Pressed) + FrameCalls(frame, 7, Pressed);
  }

  lemma ArrivedAtHandle(callback: Callback)
    ensures Exec(Start(Limits(1, 1), [Button(7, Unknown)]),
                 [Create, Add(0, 7, OnPressed, callback), Arrive(0, Pressed)])
         == State(Limits(1, 1), [Button(7, Pressed)],
                  [Frame(0, false, [HandleData(7, 0, [callback], [], [])])], 1, Some(0), [])
  {
    var s := Start(Limits(1, 1), [Button(7, Unknown)]);
    var add, arrive := Add(0, 7, OnPressed, callback), Arrive(0, Pressed);
    ExecSnoc(s, [], Create);
    ExecSnoc(s, [Create], add);
    ExecSnoc(s, [Create, add], arrive);
    assert [] + [Create] == [Create] && [Create] + [add] == [Create, add];
    assert [Create, add] + [arrive] == [Create, add, arrive];
    OneRegistered(CreateHandle(s).0, callback);
  }

  /** One press that runs one callback twice: the handle is enabled in between. */
  lemma SomePressRunsTwice(callback: Callback)
    ensures var steps := [Create, Add(0, 7, OnPressed, callback), Arrive(0, Pressed)];
            Exec(Start(Limits(1, 1), [Button(7, Unknown)]), steps + [SetEnabled(0, true)] + [RunEvent]).calls
            == [Call(0, 7, Pressed, 0), Call(0, 7, Pressed, 0)]
  {
    var s := Start(Limits(1, 1), [Button(7, Unknown)]);
    var steps := [Create, Add(0, 7, OnPressed, callback), Arrive(0, Pressed)];
    ArrivedAtHandle(callback);
    ExecSnoc(s, steps, SetEnabled(0, true));
    ExecSnoc(s, steps + [SetEnabled(0, true)], RunEvent);
    OneHeld(callback);
    OneEvent(callback);
    assert FindFrame(Exec(s, steps).frames, 0) == 0;
  }
}

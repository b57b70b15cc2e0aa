/**
 What holds of the button manager in every run: well-formed handles, and callbacks
 that run when they should, in list order, once a press.
 */
module ButtonProperties {
  import opened Common
  import opened ButtonEngine

  datatype Step =
    | Create
    | Destroy(handle: nat)
    | Add(handle: nat, button: nat, kind: Kind, callback: Callback)
    | RemoveAll(handle: nat, button: nat, kind: Kind)
    | SetEnabled(handle: nat, enable: bool)
    | Arrive(j: nat, state: ButtonState)   // the thread takes an event ...
    | RunEvent                             // ... and runs its callbacks

  function Apply(s: State, step: Step): State {
    match step
    case Create => CreateHandle(s).0
    case Destroy(handle) => DestroyHandle(s, handle).0
    case Add(handle, button, kind, callback) => Register(s, handle, button, kind, callback).0
    case RemoveAll(handle, button, kind) => Unregister(s, handle, button, kind).0
    case SetEnabled(handle, enable) => SetCallbackExecutableState(s, handle, enable).0
    case Arrive(j, state) => if s.event == None && j < |s.buttons| then Arrived(s, j, state) else s
    case RunEvent => if IsPending(s) then Ran(s) else s
  }

  function Exec(s: State, steps: seq<Step>): State
    decreases |steps|
  {
    if steps == [] then s else Apply(Exec(s, steps[..|steps| - 1]), steps[|steps| - 1])
  }

  function Start(limits: Limits, buttons: seq<Button>): State {
    State(limits, buttons, [], 0, None, [])
  }

  // ------------------------------------------------------------ well-formedness

  /** Every entry has a callback, its lists are bounded, its parameters in range. */
  ghost predicate DataOk(limits: Limits, d: HandleData) {
    && CallbackCount(d) >= 1
    && |d.pressed| <= limits.callbacks && |d.released| <= limits.callbacks && |d.longPressed| <= limits.callbacks
    && (forall i :: 0 <= i < |d.released| ==> ParamsOk(OnReleased(d.released[i].min, d.released[i].max)))
    && (forall i :: 0 <= i < |d.longPressed| ==> ParamsOk(OnLongPressed(d.longPressed[i].second)))
  }

  /** One entry for a button, and all tick counters zero while disabled. */
  ghost predicate FrameOk(limits: Limits, f: Frame) {
    && (forall k :: 0 <= k < |f.data| ==> DataOk(limits, f.data[k]) && (!f.enabled ==> f.data[k].ticks == 0))
    && (forall j, k :: 0 <= j < k < |f.data| ==> f.data[j].button != f.data[k].button)
  }

  /** Each handle has a number of its own. */
  ghost predicate HandlesOk(s: State) {
    && (forall i :: 0 <= i < |s.frames| ==> s.frames[i].handle < s.created)
    && (forall i, j :: 0 <= i < j < |s.frames| ==> s.frames[i].handle < s.frames[j].handle)
  }

  ghost predicate Structured(s: State) {
    && HandlesOk(s) && |s.frames| <= s.limits.handles
    && forall i :: 0 <= i < |s.frames| ==> FrameOk(s.limits, s.frames[i])
  }

  lemma ExecutedIsOk(limits: Limits, f: Frame, button: nat, state: ButtonState)
    requires FrameOk(limits, f)
    ensures FrameOk(limits, FrameAfter(f, button, state))
  {
  }

  /** Replacing a handle's frame by a well-formed one. */
  lemma ReplaceKeepsStructured(s: State, i: nat, f: Frame)
    requires Structured(s) && i < |s.frames| && f.handle == s.frames[i].handle && FrameOk(s.limits, f)
    ensures Structured(s.(frames := s.frames[i := f]))
  {
  }

  lemma AddedIsOk(limits: Limits, f: Frame, button: nat, kind: Kind, callback: Callback)
    requires FrameOk(limits, f) && !f.enabled && ParamsOk(kind) && limits.callbacks >= 1
    ensures var data := Prepared(f.data, button);
            var k := Find(data, button);
            && k < |data| && data[k].button == button
            && (ListSize(data[k], kind) < limits.callbacks ==>
                 FrameOk(limits, f.(data := data[k := Added(data[k], kind, callback)])))
            && (ListSize(data[k], kind) >= limits.callbacks ==> FrameOk(limits, f.(data := data)))
  {
    var data := Prepared(f.data, button);
    var k := Find(data, button);
    if Find(f.data, button) == |f.data| {
      assert data[|f.data|].button == button;
      assert k == |f.data|;
    }
  }

  lemma RemovedIsOk(limits: Limits, f: Frame, k: nat, kind: Kind)
    requires FrameOk(limits, f) && k < |f.data|
    ensures FrameOk(limits, f.(data := Without(f.data, k)))
    ensures var emptied := Emptied(f.data[k], kind);
            CallbackCount(emptied) != 0 ==> FrameOk(limits, f.(data := f.data[k := emptied]))
  {
  }

  lemma ResetIsOk(limits: Limits, f: Frame)
    requires FrameOk(limits, f)
    ensures FrameOk(limits, f.(enabled := false, data := TicksReset(f.data)))
    ensures FrameOk(limits, f.(enabled := true))
  {
  }

  lemma AddKeepsStructured(s: State, handle: nat, button: nat, kind: Kind, callback: Callback)
    requires Structured(s) && s.limits.callbacks >= 1
    ensures Structured(Register(s, handle, button, kind, callback).0)
  {
    var i := FindFrame(s.frames, handle);
    if HasButton(s, button) && ParamsOk(kind) && i < |s.frames| && !s.frames[i].enabled {
      AddedIsOk(s.limits, s.frames[i], button, kind, callback);
      var data := Prepared(s.frames[i].data, button);
      var k := Find(data, button);
      if ListSize(data[k], kind) < s.limits.callbacks {
        ReplaceKeepsStructured(s, i, s.frames[i].(data := data[k := Added(data[k], kind, callback)]));
      } else {
        ReplaceKeepsStructured(s, i, s.frames[i].(data := data));
      }
    }
  }

  lemma RemoveKeepsStructured(s: State, handle: nat, button: nat, kind: Kind)
    requires Structured(s)
    ensures Structured(Unregister(s, handle, button, kind).0)
  {
    var i := FindFrame(s.frames, handle);
    if HasButton(s, button) && i < |s.frames| && !s.frames[i].enabled {
      var data := s.frames[i].data;
      var k := Find(data, button);
      if k < |data| && ListSize(data[k], kind) != 0 {
        RemovedIsOk(s.limits, s.frames[i], k, kind);
        var emptied := Emptied(data[k], kind);
        ReplaceKeepsStructured(s, i, s.frames[i].(
          data := if CallbackCount(emptied) == 0 then Without(data, k) else data[k := emptied]));
      }
    }
  }

  lemma SetKeepsStructured(s: State, handle: nat, enable: bool)
    requires Structured(s)
    ensures Structured(SetCallbackExecutableState(s, handle, enable).0)
  {
    var i := FindFrame(s.frames, handle);
    if i < |s.frames| && s.frames[i].enabled != enable {
      ResetIsOk(s.limits, s.frames[i]);
      var f := s.frames[i].(enabled := enable);
      ReplaceKeepsStructured(s, i, if enable then f else f.(data := TicksReset(f.data)));
    }
  }

  lemma EventKeepsStructured(s: State)
    requires Structured(s) && IsPending(s)
    ensures Structured(Ran(s))
  {
    var b := s.buttons[s.event.value];
    forall i | 0 <= i < |s.frames| ensures FrameOk(s.limits, FrameAfter(s.frames[i], b.id, b.state)) {
      ExecutedIsOk(s.limits, s.frames[i], b.id, b.state);
    }
  }

  lemma ArriveKeepsStructured(s: State, j: nat, state: ButtonState)
    requires Structured(s) && j < |s.buttons|
    ensures Structured(Arrived(s, j, state))
  {
  }

  lemma CreateKeepsStructured(s: State)
    requires Structured(s)
    ensures Structured(CreateHandle(s).0)
  {
  }

  lemma DestroyKeepsStructured(s: State, handle: nat)
    requires Structured(s)
    ensures Structured(DestroyHandle(s, handle).0)
  {
  }

  lemma LimitsAreFixed(s: State, step: Step)
    ensures Apply(s, step).limits == s.limits
  {
  }

  lemma StepKeepsStructured(s: State, step: Step)
    requires Structured(s) && s.limits.callbacks >= 1
    ensures Structured(Apply(s, step))
  {
    match step
    case Create => CreateKeepsStructured(s);
    case Destroy(handle) => DestroyKeepsStructured(s, handle);
    case Add(handle, button, kind, callback) => AddKeepsStructured(s, handle, button, kind, callback);
    case RemoveAll(handle, button, kind) => RemoveKeepsStructured(s, handle, button, kind);
    case SetEnabled(handle, enable) => SetKeepsStructured(s, handle, enable);
    case Arrive(j, state) => if j < |s.buttons| { ArriveKeepsStructured(s, j, state); }
    case RunEvent => if IsPending(s) { EventKeepsStructured(s); }
  }

  /** In every run, if lists may hold a callback at all: handles are distinct and
      bounded in number, no handle has two entries for a button or an entry without a
      callback, no list outgrows its limit, and a disabled handle's counters are
      zero. */
  lemma {:induction false} RunIsStructured(limits: Limits, buttons: seq<Button>, steps: seq<Step>)
    requires limits.callbacks >= 1
    ensures Structured(Exec(Start(limits, buttons), steps)) && Exec(Start(limits, buttons), steps).limits == limits
    decreases |steps|
  {
    if steps != [] {
      RunIsStructured(limits, buttons, steps[..|steps| - 1]);
      StepKeepsStructured(Exec(Start(limits, buttons), steps[..|steps| - 1]), steps[|steps| - 1]);
      LimitsAreFixed(Exec(Start(limits, buttons), steps[..|steps| - 1]), steps[|steps| - 1]);
    }
  }

  /** With a limit of zero a refused registration leaves an entry without callbacks
      behind. */
  lemma ZeroLimitLeavesEmptyEntry(s: State, handle: nat, button: nat, kind: Kind, callback: Callback)
    requires s.limits.callbacks == 0 && HasButton(s, button) && ParamsOk(kind)
    requires var i := FindFrame(s.frames, handle);
             i < |s.frames| && !s.frames[i].enabled && s.frames[i].data == []
    ensures var (t, status) := Register(s, handle, button, kind, callback);
            var i := FindFrame(s.frames, handle);
            status == ResourceError && t.frames[i].data == [NewData(button)] && !Structured(t)
  {
    var i, t := FindFrame(s.frames, handle), Register(s, handle, button, kind, callback).0;
    assert t.frames[i].data == [NewData(button)];
    assert !DataOk(t.limits, t.frames[i].data[0]);
  }

  /** The run that does so: a handle is created, and a callback registered for the
      first button. */
  function RefusedRegistration(buttons: seq<Button>, callback: Callback): seq<Step>
    requires buttons != []
  {
    [Create, Add(0, buttons[0].id, OnPressed, callback)]
  }

  lemma RefusedRegistrationIsUnstructured(limits: Limits, buttons: seq<Button>, callback: Callback)
    requires limits.callbacks == 0 && limits.handles >= 1 && buttons != []
    ensures !Structured(Exec(Start(limits, buttons), RefusedRegistration(buttons, callback)))
  {
    var steps := RefusedRegistration(buttons, callback);
    var s := CreateHandle(Start(limits, buttons)).0;
    assert steps[..1] == [Create] && [Create][..0] == [];
    assert Exec(Start(limits, buttons), [Create]) == s;
    assert s.buttons[0].id == buttons[0].id && s.frames == [Frame(0, false, [])];
    assert FindFrame(s.frames, 0) == 0;
    ZeroLimitLeavesEmptyEntry(s, 0, buttons[0].id, OnPressed, callback);
  }

  // --------------------------------------------------------- what one button sees

  /** The data of a button in an enabled handle. */
  function View(s: State, handle: nat, button: nat): Option<HandleData> {
    var i := FindFrame(s.frames, handle);
    if i == |s.frames| || !s.frames[i].enabled then None
    else
      var k := Find(s.frames[i].data, button);
      if k == |s.frames[i].data| then None else Some(s.frames[i].data[k])
  }

  /** The entries of one list of one button of one handle that have run, in order. */
  function Log(calls: seq<Call>, handle: nat, button: nat, kind: ButtonState): seq<nat> {
    if calls == [] then []
    else
      var c := calls[|calls| - 1];
      Log(calls[..|calls| - 1], handle, button, kind)
      + if c.handle == handle && c.button == button && c.kind == kind then [c.index] else []
  }

  lemma {:induction false} LogConcat(a: seq<Call>, b: seq<Call>, handle: nat, button: nat, kind: ButtonState)
    ensures Log(a + b, handle, button, kind) == Log(a, handle, button, kind) + Log(b, handle, button, kind)
    decreases |b|
  {
    if b == [] {
      assert a + b == a;
    } else {
      LogConcat(a, b[..|b| - 1], handle, button, kind);
      assert (a + b)[..|a + b| - 1] == a + b[..|b| - 1];
    }
  }

  lemma {:induction false} LogTagged(h: nat, b: nat, k: ButtonState, indices: seq<nat>,
                                     handle: nat, button: nat, kind: ButtonState)
    ensures Log(Tagged(h, b, k, indices), handle, button, kind)
         == if h == handle && b == button && k == kind then indices else []
    decreases |indices|
  {
    if indices != [] {
      var init := indices[..|indices| - 1];
      LogTagged(h, b, k, init, handle, button, kind);
      assert Tagged(h, b, k, indices)[..|indices| - 1] == Tagged(h, b, k, init);
    }
  }

  lemma LogFrame(f: Frame, b: nat, state: ButtonState, handle: nat, button: nat, kind: ButtonState)
    ensures var i := Find(f.data, button);
            Log(FrameCalls(f, b, state), handle, button, kind)
            == if f.handle == handle && f.enabled && i < |f.data| && b == button && state == kind
               then Execute(f.data[i], state).1 else []
  {
    var i := Find(f.data, b);
    if f.enabled && i < |f.data| {
      LogTagged(f.handle, b, state, Execute(f.data[i], state).1, handle, button, kind);
    }
  }

  lemma {:induction false} LogOthers(frames: seq<Frame>, b: nat, state: ButtonState,
                                     handle: nat, button: nat, kind: ButtonState)
    requires forall i :: 0 <= i < |frames| ==> frames[i].handle != handle
    ensures Log(AllCalls(frames, b, state), handle, button, kind) == []
    decreases |frames|
  {
    if frames != [] {
      var init, last := frames[..|frames| - 1], frames[|frames| - 1];
      LogOthers(init, b, state, handle, button, kind);
      LogFrame(last, b, state, handle, button, kind);
      LogConcat(AllCalls(init, b, state), FrameCalls(last, b, state), handle, button, kind);
    }
  }

  /** Of all calls of an event, a handle's own are those of its frame. */
  lemma {:induction false} LogAll(frames: seq<Frame>, i: nat, b: nat, state: ButtonState,
                                  button: nat, kind: ButtonState)
    requires i < |frames|
    requires forall j, k :: 0 <= j < k < |frames| ==> frames[j].handle < frames[k].handle
    ensures Log(AllCalls(frames, b, state), frames[i].handle, button, kind)
         == Log(FrameCalls(frames[i], b, state), frames[i].handle, button, kind)
    decreases |frames|
  {
    var init, last := frames[..|frames| - 1], frames[|frames| - 1];
    var handle := frames[i].handle;
    LogConcat(AllCalls(init, b, state), FrameCalls(last, b, state), handle, button, kind);
    if i == |frames| - 1 {
      LogOthers(init, b, state, handle, button, kind);
    } else {
      LogAll(init, i, b, state, button, kind);
      LogFrame(last, b, state, handle, button, kind);
    }
  }

  lemma {:induction false} LogHeld(buttons: seq<Button>, f: Frame, handle: nat, button: nat, kind: ButtonState)
    requires kind != Pressed || f.handle != handle
    ensures Log(HeldCalls(buttons, f), handle, button, kind) == []
    decreases |buttons|
  {
    if buttons != [] {
      var init, b := buttons[..|buttons| - 1], buttons[|buttons| - 1];
      var i := Find(f.data, b.id);
      LogHeld(init, f, handle, button, kind);
      if IsHeld(b.state) && i < |f.data| {
        var numbers := Numbers(|f.data[i].pressed|);
        LogTagged(f.handle, b.id, Pressed, numbers, handle, button, kind);
        LogConcat(HeldCalls(init, f), Tagged(f.handle, b.id, Pressed, numbers), handle, button, kind);
      } else {
        assert HeldCalls(buttons, f) == HeldCalls(init, f);
      }
    }
  }

  // -------------------------------------------------------- what one step does to it

  lemma FrameIsFound(s: State, i: nat)
    requires HandlesOk(s) && i < |s.frames|
    ensures FindFrame(s.frames, s.frames[i].handle) == i
  {
    var j := FindFrame(s.frames, s.frames[i].handle);
    assert j <= i;
  }

  /** The step runs the callbacks of this button for this state. */
  ghost predicate IsEventOf(s: State, step: Step, button: nat, state: ButtonState) {
    step.RunEvent? && IsPending(s) && s.buttons[s.event.value] == Button(button, state)
  }

  /** A step that leaves the handle enabled. */
  ghost predicate Spares(step: Step, handle: nat) {
    step != Destroy(handle) && step != SetEnabled(handle, false)
  }

  /** What a button of an enabled handle goes through in one step. */
  function Seen(s: State, step: Step, button: nat, d: HandleData): HandleData {
    if step.RunEvent? && IsPending(s) && s.buttons[s.event.value].id == button
    then Execute(d, s.buttons[s.event.value].state).0 else d
  }

  function Due(s: State, step: Step, button: nat, d: HandleData, kind: ButtonState): seq<nat> {
    if step.RunEvent? && IsPending(s) && s.buttons[s.event.value] == Button(button, kind)
    then Execute(d, kind).1 else []
  }

  lemma ExecuteKeepsPlace(f: Frame, b: nat, state: ButtonState, button: nat)
    ensures Find(FrameAfter(f, b, state).data, button) == Find(f.data, button)
  {
    var g := FrameAfter(f, b, state);
    assert |g.data| == |f.data|;
    assert forall k :: 0 <= k < |f.data| ==> g.data[k].button == f.data[k].button;
    var i, j := Find(f.data, button), Find(g.data, button);
    assert i == j;
  }

  lemma EventKeepsHandles(s: State)
    requires HandlesOk(s) && IsPending(s)
    ensures HandlesOk(Ran(s))
  {
  }

  lemma EventChangesView(s: State, handle: nat, button: nat)
    requires HandlesOk(s) && View(s, handle, button).Some? && IsPending(s)
    ensures View(Ran(s), handle, button) == Some(Seen(s, RunEvent, button, View(s, handle, button).value))
  {
    var i, b := FindFrame(s.frames, handle), s.buttons[s.event.value];
    EventKeepsHandles(s);
    FrameIsFound(Ran(s), i);
    ExecuteKeepsPlace(s.frames[i], b.id, b.state, button);
  }

  lemma EventIsLogged(s: State, handle: nat, button: nat, kind: ButtonState)
    requires HandlesOk(s) && View(s, handle, button).Some? && IsPending(s)
    ensures Log(Ran(s).calls, handle, button, kind)
         == Log(s.calls, handle, button, kind) + Due(s, RunEvent, button, View(s, handle, button).value, kind)
  {
    var i, b := FindFrame(s.frames, handle), s.buttons[s.event.value];
    LogAll(s.frames, i, b.id, b.state, button, kind);
    LogFrame(s.frames[i], b.id, b.state, handle, button, kind);
    LogConcat(s.calls, AllCalls(s.frames, b.id, b.state), handle, button, kind);
  }

  /** A handle's own frame, and another's, after an operation on one frame. */
  lemma ReplaceElsewhere(s: State, i: nat, f: Frame, handle: nat)
    requires HandlesOk(s) && i < |s.frames| && f.handle == s.frames[i].handle
    ensures HandlesOk(s.(frames := s.frames[i := f]))
    ensures FindFrame(s.frames[i := f], handle) == FindFrame(s.frames, handle)
  {
    var t := s.(frames := s.frames[i := f]);
    assert forall k :: 0 <= k < |s.frames| ==> t.frames[k].handle == s.frames[k].handle;
    var k, l := FindFrame(s.frames, handle), FindFrame(t.frames, handle);
    assert k == l;
  }

  lemma ViewElsewhere(s: State, i: nat, f: Frame, calls: seq<Call>, handle: nat, button: nat)
    requires HandlesOk(s) && i < |s.frames| && f.handle == s.frames[i].handle
    requires f.handle != handle
    ensures var t := s.(frames := s.frames[i := f], calls := calls);
            HandlesOk(t) && View(t, handle, button) == View(s, handle, button)
  {
    ReplaceElsewhere(s, i, f, handle);
  }

  /** Registering, unregistering and enabling change one frame, and none that is
      enabled but to disable it. */
  lemma ChangesOneFrame(s: State, step: Step)
    requires step.Add? || step.RemoveAll? || step.SetEnabled?
    ensures var i, t := FindFrame(s.frames, step.handle), Apply(s, step);
            && (i == |s.frames| ==> t == s)
            && (i < |s.frames| ==>
                 && |t.frames| == |s.frames| && t.frames[i].handle == step.handle
                 && t == s.(frames := s.frames[i := t.frames[i]], calls := t.calls)
                 && (s.frames[i].enabled && step != SetEnabled(step.handle, false) ==> t == s))
  {
    var i, t := FindFrame(s.frames, step.handle), Apply(s, step);
    if i < |s.frames| {
      assert t.frames == s.frames[i := t.frames[i]];
    }
  }

  lemma ChangeSpares(s: State, step: Step, handle: nat, button: nat)
    requires HandlesOk(s) && View(s, handle, button).Some? && Spares(step, handle)
    requires step.Add? || step.RemoveAll? || step.SetEnabled?
    ensures HandlesOk(Apply(s, step)) && View(Apply(s, step), handle, button) == View(s, handle, button)
  {
    var i, t := FindFrame(s.frames, step.handle), Apply(s, step);
    ChangesOneFrame(s, step);
    if i < |s.frames| && step.handle != handle {
      ViewElsewhere(s, i, t.frames[i], t.calls, handle, button);
    }
  }

  lemma CreateSpares(s: State, handle: nat, button: nat)
    requires HandlesOk(s) && View(s, handle, button).Some?
    ensures HandlesOk(CreateHandle(s).0) && View(CreateHandle(s).0, handle, button) == View(s, handle, button)
  {
    CreateKeepsHandles(s);
    FrameIsFound(CreateHandle(s).0, FindFrame(s.frames, handle));
  }

  lemma CreateKeepsHandles(s: State)
    requires HandlesOk(s)
    ensures HandlesOk(CreateHandle(s).0)
  {
  }

  lemma DestroyKeepsHandles(s: State, other: nat)
    requires HandlesOk(s)
    ensures HandlesOk(DestroyHandle(s, other).0)
  {
  }

  lemma DestroySpares(s: State, other: nat, handle: nat, button: nat)
    requires HandlesOk(s) && View(s, handle, button).Some? && other != handle
    ensures View(DestroyHandle(s, other).0, handle, button) == View(s, handle, button)
  {
    var i, k := FindFrame(s.frames, other), FindFrame(s.frames, handle);
    if i < |s.frames| {
      DestroyKeepsHandles(s, other);
      FrameIsFound(DestroyHandle(s, other).0, if k < i then k else k - 1);
    }
  }

  lemma OthersAreNotLogged(s: State, step: Step, handle: nat, button: nat, kind: ButtonState)
    requires !step.RunEvent? && (kind != Pressed || View(s, handle, button).Some?)
    ensures Log(Apply(s, step).calls, handle, button, kind) == Log(s.calls, handle, button, kind)
  {
    if step.SetEnabled? && step.enable {
      var i := FindFrame(s.frames, step.handle);
      if i < |s.frames| && !s.frames[i].enabled {
        var f := s.frames[i].(enabled := true);
        LogHeld(s.buttons, f, handle, button, kind);
        LogConcat(s.calls, HeldCalls(s.buttons, f), handle, button, kind);
      }
    }
  }

  /** One step, seen from a button of a handle that stays enabled: only running an
      event of this button has any effect, and it runs exactly what is due. */
  lemma StepSeen(s: State, step: Step, handle: nat, button: nat, kind: ButtonState)
    requires HandlesOk(s) && View(s, handle, button).Some? && Spares(step, handle)
    ensures var d, t := View(s, handle, button).value, Apply(s, step);
            && HandlesOk(t)
            && View(t, handle, button) == Some(Seen(s, step, button, d))
            && Log(t.calls, handle, button, kind)
               == Log(s.calls, handle, button, kind) + Due(s, step, button, d, kind)
  {
    if step.RunEvent? {
      if IsPending(s) {
        EventKeepsHandles(s);
        EventChangesView(s, handle, button);
        EventIsLogged(s, handle, button, kind);
      }
    } else {
      OthersAreNotLogged(s, step, handle, button, kind);
      if step.Create? {
        CreateSpares(s, handle, button);
      } else if step.Destroy? {
        DestroyKeepsHandles(s, step.handle);
        DestroySpares(s, step.handle, handle, button);
      } else if !step.Arrive? {
        ChangeSpares(s, step, handle, button);
      }
    }
  }

  // ------------------------------------------------------------------- one press

  /** A run that keeps the handle enabled and processes no release of the button. */
  ghost predicate Pressing(s: State, handle: nat, button: nat, steps: seq<Step>)
    decreases |steps|
  {
    steps == [] ||
    (var init, last := steps[..|steps| - 1], steps[|steps| - 1];
     && Pressing(s, handle, button, init)
     && Spares(last, handle) && !IsEventOf(Exec(s, init), last, button, Released))
  }

  /** How many long-press ticks of the button a run processes. */
  ghost function Ticks(s: State, button: nat, steps: seq<Step>): nat
    decreases |steps|
  {
    if steps == [] then 0
    else
      var init := steps[..|steps| - 1];
      Ticks(s, button, init) + if IsEventOf(Exec(s, init), steps[|steps| - 1], button, LongPressed) then 1 else 0
  }

  /** What `f` yields at 1, 2, ..., n. */
  function Gathered(f: nat -> seq<nat>, n: nat): seq<nat> {
    if n == 0 then [] else Gathered(f, n - 1) + f(n)
  }

  /** The long-press entries that run at ticks 1, 2, ..., n. */
  function Fired(infos: seq<LongPressedInfo>, n: nat): seq<nat> {
    Gathered((ticks: nat) => LongPressedDue(infos, ticks), n)
  }

  /** What a step does to a button that has been held for `n` ticks and is not released. */
  lemma HeldOn(s: State, step: Step, button: nat, d: HandleData, n: nat)
    requires !IsEventOf(s, step, button, Released)
    ensures var held, tick := d.(ticks := n), IsEventOf(s, step, button, LongPressed);
            && Seen(s, step, button, held) == d.(ticks := if tick then n + 1 else n)
            && Due(s, step, button, held, LongPressed) == if tick then LongPressedDue(d.longPressed, n + 1) else []
  {
  }

  lemma PressStepTicks(s: State, step: Step, handle: nat, button: nat, d: HandleData, n: nat)
    requires HandlesOk(s) && View(s, handle, button) == Some(d.(ticks := n))
    requires Spares(step, handle) && !IsEventOf(s, step, button, Released)
    ensures var t, tick := Apply(s, step), IsEventOf(s, step, button, LongPressed);
            && HandlesOk(t)
            && View(t, handle, button) == Some(d.(ticks := if tick then n + 1 else n))
            && Log(t.calls, handle, button, LongPressed)
               == Log(s.calls, handle, button, LongPressed)
                  + (if tick then LongPressedDue(d.longPressed, n + 1) else [])
  {
    StepSeen(s, step, handle, button, LongPressed);
    HeldOn(s, step, button, d, n);
  }

  lemma PressStepReleasesNothing(s: State, step: Step, handle: nat, button: nat)
    requires HandlesOk(s) && View(s, handle, button).Some?
    requires Spares(step, handle) && !IsEventOf(s, step, button, Released)
    ensures Log(Apply(s, step).calls, handle, button, Released) == Log(s.calls, handle, button, Released)
  {
    StepSeen(s, step, handle, button, Released);
  }

  /** One step of a press with `n` ticks so far. */
  lemma PressStep(s: State, step: Step, handle: nat, button: nat, d: HandleData, n: nat)
    requires HandlesOk(s) && View(s, handle, button) == Some(d.(ticks := n))
    requires Spares(step, handle) && !IsEventOf(s, step, button, Released)
    ensures var t, tick := Apply(s, step), IsEventOf(s, step, button, LongPressed);
            && HandlesOk(t)
            && View(t, handle, button) == Some(d.(ticks := if tick then n + 1 else n))
            && Log(t.calls, handle, button, LongPressed)
               == Log(s.calls, handle, button, LongPressed)
                  + (if tick then LongPressedDue(d.longPressed, n + 1) else [])
            && Log(t.calls, handle, button, Released) == Log(s.calls, handle, button, Released)
  {
    PressStepTicks(s, step, handle, button, d, n);
    PressStepReleasesNothing(s, step, handle, button);
  }

  /** What a press of `n` ticks has done since `s`. */
  ghost predicate SincePressed(s: State, t: State, handle: nat, button: nat, d: HandleData, n: nat) {
    && HandlesOk(t)
    && View(t, handle, button) == Some(d.(ticks := n))
    && Log(t.calls, handle, button, LongPressed)
       == Log(s.calls, handle, button, LongPressed) + Fired(d.longPressed, n)
    && Log(t.calls, handle, button, Released) == Log(s.calls, handle, button, Released)
  }

  lemma PressGoesOn(s: State, t: State, step: Step, u: State, handle: nat, button: nat, d: HandleData, n: nat, m: nat)
    requires SincePressed(s, t, handle, button, d, n)
    requires Spares(step, handle) && !IsEventOf(t, step, button, Released) && u == Apply(t, step)
    requires m == n + if IsEventOf(t, step, button, LongPressed) then 1 else 0
    ensures SincePressed(s, u, handle, button, d, m)
  {
    PressStep(t, step, handle, button, d, n);
    if IsEventOf(t, step, button, LongPressed) {
      FiredNext(Log(s.calls, handle, button, LongPressed), d.longPressed, n);
    }
  }

  lemma FiredNext(before: seq<nat>, infos: seq<LongPressedInfo>, n: nat)
    ensures before + Fired(infos, n) + LongPressedDue(infos, n + 1) == before + Fired(infos, n + 1)
  {
    Associate(before, Fired(infos, n), LongPressedDue(infos, n + 1));
  }

  lemma Associate<T>(a: seq<T>, b: seq<T>, c: seq<T>)
    ensures a + b + c == a + (b + c)
  {
  }

  lemma RunGoesOn(s: State, button: nat, steps: seq<Step>)
    requires steps != []
    ensures var init, last := steps[..|steps| - 1], steps[|steps| - 1];
            && Exec(s, steps) == Apply(Exec(s, init), last)
            && Ticks(s, button, steps)
               == Ticks(s, button, init) + if IsEventOf(Exec(s, init), last, button, LongPressed) then 1 else 0
  {
  }

  lemma {:induction false} PressRuns(s: State, handle: nat, button: nat, d: HandleData, steps: seq<Step>)
    requires SincePressed(s, s, handle, button, d, 0) && Pressing(s, handle, button, steps)
    ensures SincePressed(s, Exec(s, steps), handle, button, d, Ticks(s, button, steps))
    decreases |steps|
  {
    if steps != [] {
      var init, last := steps[..|steps| - 1], steps[|steps| - 1];
      PressRuns(s, handle, button, d, init);
      RunGoesOn(s, button, steps);
      PressGoesOn(s, Exec(s, init), last, Exec(s, steps), handle, button, d,
                  Ticks(s, button, init), Ticks(s, button, steps));
    }
  }

  lemma PressIsLogged(s: State, handle: nat, button: nat, steps: seq<Step>)
    requires HandlesOk(s) && View(s, handle, button).Some? && View(s, handle, button).value.ticks == 0
    requires Pressing(s, handle, button, steps)
    ensures SincePressed(s, Exec(s, steps), handle, button, View(s, handle, button).value, Ticks(s, button, steps))
  {
    var d := View(s, handle, button).value;
    assert d == d.(ticks := 0);
    PressRuns(s, handle, button, d, steps);
  }

  lemma {:induction false} DueOnce(infos: seq<LongPressedInfo>, ticks: nat, i: nat)
    requires i < |infos|
    ensures multiset(LongPressedDue(infos, ticks))[i] == if infos[i].second == ticks then 1 else 0
    decreases |infos|
  {
    var n := |infos| - 1;
    var init := LongPressedDue(infos[..n], ticks);
    assert LongPressedDue(infos, ticks) == init + if infos[n].second == ticks then [n] else [];
    if i < n {
      DueOnce(infos[..n], ticks, i);
    } else {
      DueIndices(infos[..n], ticks);
      assert n !in init;
    }
  }

  lemma {:induction false} DueIndices(infos: seq<LongPressedInfo>, ticks: nat)
    ensures forall k :: k in LongPressedDue(infos, ticks) ==> k < |infos|
    decreases |infos|
  {
    if infos != [] {
      DueIndices(infos[..|infos| - 1], ticks);
    }
  }

  lemma CountConcat(a: seq<nat>, b: seq<nat>, i: nat)
    ensures multiset(a + b)[i] == multiset(a)[i] + multiset(b)[i]
  {
  }

  lemma {:induction false} GatheredOnce(f: nat -> seq<nat>, n: nat, i: nat, second: int)
    requires forall ticks :: 1 <= ticks <= n ==> multiset(f(ticks))[i] == if ticks == second then 1 else 0
    ensures multiset(Gathered(f, n))[i] == if 1 <= second <= n then 1 else 0
    decreases n
  {
    if n != 0 {
      GatheredOnce(f, n - 1, i, second);
      CountConcat(Gathered(f, n - 1), f(n), i);
    }
  }

  lemma FiredOnce(infos: seq<LongPressedInfo>, n: nat, i: nat)
    requires i < |infos|
    ensures multiset(Fired(infos, n))[i] == if 1 <= infos[i].second <= n then 1 else 0
  {
    forall ticks: nat | 1 <= ticks <= n
      ensures multiset(LongPressedDue(infos, ticks))[i] == if ticks == infos[i].second then 1 else 0
    {
      DueOnce(infos, ticks, i);
    }
    GatheredOnce((ticks: nat) => LongPressedDue(infos, ticks), n, i, infos[i].second);
  }

  /** A handle starts every press count at zero when it is enabled, in every run. */
  lemma {:induction false} EnablingStartsAtZero(limits: Limits, buttons: seq<Button>, steps: seq<Step>,
                                                handle: nat, button: nat)
    requires limits.callbacks >= 1
    requires var s := Exec(Start(limits, buttons), steps);
             var i := FindFrame(s.frames, handle);
             i < |s.frames| && !s.frames[i].enabled
    ensures var t := Apply(Exec(Start(limits, buttons), steps), SetEnabled(handle, true));
            && HandlesOk(t)
            && (View(t, handle, button).Some? ==>
                 View(t, handle, button).value.ticks == 0 && DataOk(limits, View(t, handle, button).value))
  {
    var s := Exec(Start(limits, buttons), steps);
    RunIsStructured(limits, buttons, steps);
    EnabledAtZero(s, handle, button);
  }

  lemma EnabledAtZero(s: State, handle: nat, button: nat)
    requires Structured(s)
    requires var i := FindFrame(s.frames, handle); i < |s.frames| && !s.frames[i].enabled
    ensures var t := SetCallbackExecutableState(s, handle, true).0;
            && HandlesOk(t)
            && (View(t, handle, button).Some? ==>
                 View(t, handle, button).value.ticks == 0 && DataOk(s.limits, View(t, handle, button).value))
  {
    var i := FindFrame(s.frames, handle);
    SetKeepsStructured(s, handle, true);
    FrameIsFound(SetCallbackExecutableState(s, handle, true).0, i);
  }

  /** In a handle that stays enabled, from zero ticks on and until the button is
      released, a long-press callback for `second` seconds runs exactly once if at
      least that many ticks arrive, and not at all otherwise, whatever else happens. */
  lemma {:induction false} LongPressRunsOnce(s: State, handle: nat, button: nat, steps: seq<Step>, i: nat)
    requires HandlesOk(s) && View(s, handle, button).Some? && View(s, handle, button).value.ticks == 0
    requires Pressing(s, handle, button, steps) && i < |View(s, handle, button).value.longPressed|
    ensures var second, t := View(s, handle, button).value.longPressed[i].second, Exec(s, steps);
            multiset(Log(t.calls, handle, button, LongPressed))[i]
            == multiset(Log(s.calls, handle, button, LongPressed))[i]
               + if 1 <= second <= Ticks(s, button, steps) then 1 else 0
  {
    var infos, n := View(s, handle, button).value.longPressed, Ticks(s, button, steps);
    PressIsLogged(s, handle, button, steps);
    FiredOnce(infos, n, i);
    CountConcat(Log(s.calls, handle, button, LongPressed), Fired(infos, n), i);
  }

  lemma {:induction false} WhatReleaseRuns(infos: seq<ReleasedInfo>, ticks: nat, i: nat)
    requires forall k :: 0 <= k < |infos| ==> ParamsOk(OnReleased(infos[k].min, infos[k].max))
    ensures i in ReleasedDue(infos, ticks) <==>
            i < |infos| && infos[i].min <= ticks && (infos[i].max == 0 || ticks <= infos[i].max)
    decreases |infos|
  {
    if infos != [] {
      assert ParamsOk(OnReleased(infos[|infos| - 1].min, infos[|infos| - 1].max));
      WhatReleaseRuns(infos[..|infos| - 1], ticks, i);
    }
  }

  /** List order: the order of registration. */
  ghost predicate Increasing(s: seq<nat>) {
    forall j, k :: 0 <= j < k < |s| ==> s[j] < s[k]
  }

  lemma {:induction false} ReleaseRunsInOrder(infos: seq<ReleasedInfo>, ticks: nat)
    ensures Increasing(ReleasedDue(infos, ticks))
    ensures forall k :: 0 <= k < |ReleasedDue(infos, ticks)| ==> ReleasedDue(infos, ticks)[k] < |infos|
    decreases |infos|
  {
    if infos != [] {
      ReleaseRunsInOrder(infos[..|infos| - 1], ticks);
    }
  }

  lemma {:induction false} LongPressRunsInOrder(infos: seq<LongPressedInfo>, ticks: nat)
    ensures Increasing(LongPressedDue(infos, ticks))
    ensures forall k :: 0 <= k < |LongPressedDue(infos, ticks)| ==> LongPressedDue(infos, ticks)[k] < |infos|
    decreases |infos|
  {
    if infos != [] {
      LongPressRunsInOrder(infos[..|infos| - 1], ticks);
    }
  }

  /** The release that ends the press runs, in the order of registration and once
      each, exactly the callbacks whose window holds the number of ticks, and starts
      the count afresh. */
  lemma {:induction false} ReleaseRunsWindow(s: State, handle: nat, button: nat, steps: seq<Step>, last: Step, i: nat)
    requires HandlesOk(s) && View(s, handle, button).Some? && View(s, handle, button).value.ticks == 0
    requires DataOk(s.limits, View(s, handle, button).value)
    requires Pressing(s, handle, button, steps) && IsEventOf(Exec(s, steps), last, button, Released)
    ensures var d, t, n := View(s, handle, button).value, Exec(s, steps + [last]), Ticks(s, button, steps);
            var ran := ReleasedDue(d.released, n);
            && View(t, handle, button) == Some(d)
            && Log(t.calls, handle, button, Released) == Log(s.calls, handle, button, Released) + ran
            && Increasing(ran)
            && (i in ran <==>
                 i < |d.released| && d.released[i].min <= n && (d.released[i].max == 0 || n <= d.released[i].max))
  {
    var d, n := View(s, handle, button).value, Ticks(s, button, steps);
    PressIsLogged(s, handle, button, steps);
    StepSeen(Exec(s, steps), last, handle, button, Released);
    assert (steps + [last])[..|steps|] == steps;
    ReleaseRunsInOrder(d.released, n);
    WhatReleaseRuns(d.released, n, i);
  }
}

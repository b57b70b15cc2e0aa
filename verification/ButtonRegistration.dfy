/**
 What the operations of the button manager return and store, by the fields of the
 entries, and from a registration to the call.
 */
module ButtonRegistration {
  import opened Common
  import opened ButtonEngine
  import opened ButtonPresses
  import opened ButtonProperties

  // ----------------------------------------------------------------- registration

  /** The entry of a button before a registration; a new one has no callback. */
  function EntryBefore(data: seq<HandleData>, button: nat): HandleData {
    var k := Find(data, button);
    if k < |data| then data[k] else HandleData(button, 0, [], [], [])
  }

  function WithEntry(data: seq<HandleData>, button: nat, d: HandleData): seq<HandleData> {
    var k := Find(data, button);
    if k < |data| then data[k := d] else data + [d]
  }

  /** One callback more at the end of one list, as given; the rest as it was. */
  function EntryAfter(d: HandleData, button: nat, kind: Kind, callback: Callback): HandleData {
    match kind
    case OnPressed => HandleData(button, d.ticks, d.pressed + [callback], d.released, d.longPressed)
    case OnReleased(min, max) =>
      HandleData(button, d.ticks, d.pressed, d.released + [ReleasedInfo(min, max, callback)], d.longPressed)
    case OnLongPressed(second) =>
      HandleData(button, d.ticks, d.pressed, d.released, d.longPressed + [LongPressedInfo(second, callback)])
  }

  predicate InvalidTimes(kind: Kind) {
    match kind
    case OnPressed => false
    case OnReleased(min, max) => min < 0 || min > 120 || max < 0 || max > 120 || (max != 0 && min > max)
    case OnLongPressed(second) => second <= 0 || second > 120
  }

  predicate IsFull(limits: Limits, d: HandleData, kind: Kind) {
    match kind
    case OnPressed => |d.pressed| >= limits.callbacks
    case OnReleased(_, _) => |d.released| >= limits.callbacks
    case OnLongPressed(_) => |d.longPressed| >= limits.callbacks
  }

  lemma PreparedEntry(data: seq<HandleData>, button: nat)
    ensures var k := Find(Prepared(data, button), button);
            && k < |Prepared(data, button)| && Prepared(data, button)[k] == EntryBefore(data, button)
            && (Find(data, button) < |data| ==> k == Find(data, button) && Prepared(data, button) == data)
            && (Find(data, button) == |data| ==>
                 k == |data| && Prepared(data, button) == data + [EntryBefore(data, button)])
  {
    if Find(data, button) == |data| {
      assert Prepared(data, button)[|data|].button == button;
    }
  }

  lemma AddedEntry(d: HandleData, button: nat, kind: Kind, callback: Callback)
    requires d.button == button
    ensures Added(d, kind, callback) == EntryAfter(d, button, kind, callback)
  {
  }

  lemma StoredEntry(data: seq<HandleData>, button: nat, d: HandleData)
    ensures var k := Find(Prepared(data, button), button);
            k < |Prepared(data, button)| && Prepared(data, button)[k := d] == WithEntry(data, button, d)
    ensures WithEntry(data, button, EntryBefore(data, button)) == Prepared(data, button)
  {
    PreparedEntry(data, button);
  }

  /** What a registration returns and stores. */
  lemma {:induction false} WhatRegisterStores(s: State, handle: nat, button: nat, kind: Kind, callback: Callback)
    ensures var (t, status) := Register(s, handle, button, kind, callback);
            var i := FindFrame(s.frames, handle);
            if !(exists j :: 0 <= j < |s.buttons| && s.buttons[j].id == button) || InvalidTimes(kind)
            then status == ParamError && t == s
            else if i == |s.frames| then status == HandleError && t == s
            else if s.frames[i].enabled then status == StateTransitionError && t == s
            else
              var f := s.frames[i];
              var d := EntryBefore(f.data, button);
              if IsFull(s.limits, d, kind)
              then
                && status == ResourceError
                && t == s.(frames := s.frames[i := f.(data := WithEntry(f.data, button, d))])
              else
                && status == Ok
                && t == s.(frames := s.frames[i :=
                     f.(data := WithEntry(f.data, button, EntryAfter(d, button, kind, callback)))])
  {
    var i := FindFrame(s.frames, handle);
    if i < |s.frames| {
      var data := s.frames[i].data;
      var d := EntryBefore(data, button);
      PreparedEntry(data, button);
      AddedEntry(d, button, kind, callback);
      StoredEntry(data, button, EntryAfter(d, button, kind, callback));
    }
  }

  /** What is left of an entry when one of its lists is emptied. */
  function EntryWithout(d: HandleData, kind: Kind): HandleData {
    match kind
    case OnPressed => HandleData(d.button, d.ticks, [], d.released, d.longPressed)
    case OnReleased(_, _) => HandleData(d.button, d.ticks, d.pressed, [], d.longPressed)
    case OnLongPressed(_) => HandleData(d.button, d.ticks, d.pressed, d.released, [])
  }

  predicate HasNone(d: HandleData, kind: Kind) {
    match kind
    case OnPressed => d.pressed == []
    case OnReleased(_, _) => d.released == []
    case OnLongPressed(_) => d.longPressed == []
  }

  /** What an unregistration returns and leaves: the list is emptied, and an entry with no
      list left goes. */
  lemma {:induction false} WhatUnregisterLeaves(s: State, handle: nat, button: nat, kind: Kind)
    ensures var (t, status) := Unregister(s, handle, button, kind);
            var i := FindFrame(s.frames, handle);
            if !(exists j :: 0 <= j < |s.buttons| && s.buttons[j].id == button) then status == ParamError && t == s
            else if i == |s.frames| then status == HandleError && t == s
            else if s.frames[i].enabled then status == StateTransitionError && t == s
            else
              var f := s.frames[i];
              var k := Find(f.data, button);
              if k == |f.data| || HasNone(f.data[k], kind) then status == ResourceError && t == s
              else
                var d := EntryWithout(f.data[k], kind);
                && status == Ok
                && t == s.(frames := s.frames[i := f.(
                     data := if d.pressed == [] && d.released == [] && d.longPressed == []
                             then f.data[..k] + f.data[k + 1..] else f.data[k := d])])
  {
  }

  // ------------------------------------------------------------ the other operations

  /** Creating and destroying a handle. */
  lemma WhatCreateAndDestroyDo(s: State, handle: nat)
    ensures CreateHandle(s)
         == if |s.frames| >= s.limits.handles then (s, ResourceError)
            else (s.(frames := s.frames + [Frame(s.created, false, [])], created := s.created + 1), Ok)
    ensures var i := FindFrame(s.frames, handle);
            DestroyHandle(s, handle)
            == if i == |s.frames| then (s, HandleError)
               else (s.(frames := s.frames[..i] + s.frames[i + 1..]), Ok)
  {
  }

  /** Enabling and disabling: only the flag changes, but for the counters of a handle
      that is disabled and the callbacks of held buttons of one that is enabled. */
  lemma WhatSetDoes(s: State, handle: nat, enable: bool)
    ensures var (t, status) := SetCallbackExecutableState(s, handle, enable);
            var i := FindFrame(s.frames, handle);
            if i == |s.frames| then status == HandleError && t == s
            else if s.frames[i].enabled == enable then status == StateTransitionError && t == s
            else
              && status == Ok && |t.frames| == |s.frames|
              && t == s.(frames := s.frames[i := t.frames[i]], calls := t.calls)
              && t.frames[i].handle == s.frames[i].handle && t.frames[i].enabled == enable
              && (enable ==> t.frames[i].data == s.frames[i].data && s.calls <= t.calls)
              && (!enable ==>
                   && t.calls == s.calls && |t.frames[i].data| == |s.frames[i].data|
                   && forall k :: 0 <= k < |s.frames[i].data| ==>
                        t.frames[i].data[k] == s.frames[i].data[k].(ticks := 0))
  {
    var i := FindFrame(s.frames, handle);
    if i < |s.frames| {
      var t := SetCallbackExecutableState(s, handle, enable).0;
      assert t.frames == s.frames[i := t.frames[i]];
    }
  }

  /** Every event but a first release becomes pending, and every event changes the state
      of its button and of no other. */
  lemma WhatArrivalDoes(s: State, j: nat, state: ButtonState)
    requires j < |s.buttons| && s.event == None
    ensures Apply(s, Arrive(j, state))
         == s.(buttons := s.buttons[j := Button(s.buttons[j].id, state)],
               event := if s.buttons[j].state == Unknown && state == Released then None else Some(j))
  {
  }

  /** How many of the buttons with this id are held. */
  function HeldCount(buttons: seq<Button>, id: nat): nat {
    if buttons == [] then 0
    else
      var b := buttons[|buttons| - 1];
      HeldCount(buttons[..|buttons| - 1], id)
      + if b.id == id && (b.state == Pressed || b.state == LongPressed) then 1 else 0
  }

  lemma {:induction false} HeldRunsExactly(buttons: seq<Button>, f: Frame, id: nat, i: nat)
    ensures var k := Find(f.data, id);
            multiset(Log(HeldCalls(buttons, f), f.handle, id, Pressed))[i]
            == if k < |f.data| && i < |f.data[k].pressed| then HeldCount(buttons, id) else 0
    decreases |buttons|
  {
    if buttons != [] {
      var init, b := buttons[..|buttons| - 1], buttons[|buttons| - 1];
      HeldRunsExactly(init, f, id, i);
      OneHeldButton(HeldCalls(init, f), f, b, id, i);
    }
  }

  lemma OneHeldButton(before: seq<Call>, f: Frame, b: Button, id: nat, i: nat)
    ensures var k, l := Find(f.data, b.id), Find(f.data, id);
            var ran := if IsHeld(b.state) && k < |f.data|
                       then Tagged(f.handle, b.id, Pressed, Numbers(|f.data[k].pressed|)) else [];
            multiset(Log(before + ran, f.handle, id, Pressed))[i]
            == multiset(Log(before, f.handle, id, Pressed))[i]
               + if b.id == id && IsHeld(b.state) && l < |f.data| && i < |f.data[l].pressed| then 1 else 0
  {
    var k := Find(f.data, b.id);
    var ran := if IsHeld(b.state) && k < |f.data|
               then Tagged(f.handle, b.id, Pressed, Numbers(|f.data[k].pressed|)) else [];
    LogConcat(before, ran, f.handle, id, Pressed);
    CountConcat(Log(before, f.handle, id, Pressed), Log(ran, f.handle, id, Pressed), i);
    if IsHeld(b.state) && k < |f.data| {
      LogTagged(f.handle, b.id, Pressed, Numbers(|f.data[k].pressed|), f.handle, id, Pressed);
      NumbersCount(|f.data[k].pressed|, i);
    }
  }

  lemma NumbersCount(n: nat, i: nat)
    ensures multiset(Numbers(n))[i] == if i < n then 1 else 0
  {
    if i < n {
      NumbersOnce(n, i);
    }
  }

  /** Enabling a handle runs each of its pressed callbacks once for every button with its
      id that is held, and none for a button that is not. */
  lemma {:induction false} EnablingRunsWhatIsHeld(s: State, handle: nat, id: nat, i: nat)
    requires Enables(s, SetEnabled(handle, true), handle)
    ensures var t, f := Apply(s, SetEnabled(handle, true)), s.frames[FindFrame(s.frames, handle)];
            var k := Find(f.data, id);
            Runs(t, handle, id, i) == Runs(s, handle, id, i)
              + if k < |f.data| && i < |f.data[k].pressed| then HeldCount(s.buttons, id) else 0
  {
    EnablingAppends(s, handle);
    HeldIsAppended(s.calls, s.buttons, s.frames[FindFrame(s.frames, handle)].(enabled := true), id, i);
  }

  lemma EnablingAppends(s: State, handle: nat)
    requires Enables(s, SetEnabled(handle, true), handle)
    ensures var f := s.frames[FindFrame(s.frames, handle)].(enabled := true);
            f.handle == handle && Apply(s, SetEnabled(handle, true)).calls == s.calls + HeldCalls(s.buttons, f)
  {
  }

  lemma HeldIsAppended(calls: seq<Call>, buttons: seq<Button>, f: Frame, id: nat, i: nat)
    ensures var k := Find(f.data, id);
            multiset(Log(calls + HeldCalls(buttons, f), f.handle, id, Pressed))[i]
            == multiset(Log(calls, f.handle, id, Pressed))[i]
               + if k < |f.data| && i < |f.data[k].pressed| then HeldCount(buttons, id) else 0
  {
    LogConcat(calls, HeldCalls(buttons, f), f.handle, id, Pressed);
    CountConcat(Log(calls, f.handle, id, Pressed), Log(HeldCalls(buttons, f), f.handle, id, Pressed), i);
    HeldRunsExactly(buttons, f, id, i);
  }

  // ------------------------------------------------- from the registration to the call

  lemma RegisteredIsSeen(s: State, handle: nat, button: nat, kind: Kind, callback: Callback)
    requires HandlesOk(s) && Register(s, handle, button, kind, callback).1 == Ok
    ensures var i := FindFrame(s.frames, handle);
            var t := Apply(Apply(s, Add(handle, button, kind, callback)), SetEnabled(handle, true));
            && i < |s.frames|
            && View(t, handle, button)
               == Some(EntryAfter(EntryBefore(s.frames[i].data, button), button, kind, callback))
  {
    var i, t := FindFrame(s.frames, handle), Apply(s, Add(handle, button, kind, callback));
    WhatRegisterStores(s, handle, button, kind, callback);
    var d := EntryAfter(EntryBefore(s.frames[i].data, button), button, kind, callback);
    ReplaceElsewhere(s, i, t.frames[i], handle);
    StoredIsFound(s.frames[i].data, button, d);
    WhatSetDoes(t, handle, true);
    var u := Apply(t, SetEnabled(handle, true));
    ReplaceElsewhere(t, i, u.frames[i], handle);
  }

  lemma StoredIsFound(data: seq<HandleData>, button: nat, d: HandleData)
    requires d.button == button
    ensures var k, stored := Find(WithEntry(data, button, d), button), WithEntry(data, button, d);
            k < |stored| && stored[k] == d
  {
    var l, stored := Find(data, button), WithEntry(data, button, d);
    assert stored[l] == d;
    assert forall j :: 0 <= j < l ==> stored[j] == data[j];
  }

  /** A run in which a callback is registered and its handle enabled. */
  function Ready(before: seq<Step>, handle: nat, button: nat, kind: Kind, callback: Callback): seq<Step> {
    before + [Add(handle, button, kind, callback)] + [SetEnabled(handle, true)]
  }

  lemma ReadyToPress(limits: Limits, buttons: seq<Button>, before: seq<Step>,
                     handle: nat, button: nat, kind: Kind, callback: Callback)
    requires limits.callbacks >= 1
    requires Register(Exec(Start(limits, buttons), before), handle, button, kind, callback).1 == Ok
    ensures var s := Exec(Start(limits, buttons), before);
            var t := Exec(Start(limits, buttons), Ready(before, handle, button, kind, callback));
            && FindFrame(s.frames, handle) < |s.frames| && HandlesOk(t)
            && var d := EntryBefore(s.frames[FindFrame(s.frames, handle)].data, button);
            && View(t, handle, button) == Some(EntryAfter(d, button, kind, callback))
            && View(t, handle, button).value.ticks == 0 && !InvalidTimes(kind)
            && t.limits == limits && DataOk(limits, View(t, handle, button).value)
  {
    var s, add := Exec(Start(limits, buttons), before), Add(handle, button, kind, callback);
    RunKeepsHandles(limits, buttons, before);
    WhatRegisterStores(s, handle, button, kind, callback);
    RegisteredIsSeen(s, handle, button, kind, callback);
    ExecSnoc(Start(limits, buttons), before, add);
    ExecSnoc(Start(limits, buttons), before + [add], SetEnabled(handle, true));
    StillDisabled(s, handle, button, kind, callback);
    EnablingStartsAtZero(limits, buttons, before + [add], handle, button);
    RunIsStructured(limits, buttons, Ready(before, handle, button, kind, callback));
  }

  lemma StillDisabled(s: State, handle: nat, button: nat, kind: Kind, callback: Callback)
    requires HandlesOk(s) && Register(s, handle, button, kind, callback).1 == Ok
    ensures var t := Apply(s, Add(handle, button, kind, callback));
            var i := FindFrame(t.frames, handle);
            i < |t.frames| && !t.frames[i].enabled
  {
    var i, t := FindFrame(s.frames, handle), Apply(s, Add(handle, button, kind, callback));
    WhatRegisterStores(s, handle, button, kind, callback);
    ReplaceElsewhere(s, i, t.frames[i], handle);
  }

  /** From end to end, in every run: a long-press callback registered for `second` seconds
      in a handle that is then enabled is the last of its list, and in a press of `n`
      ticks it runs once if and only if `second <= n`. */
  lemma {:induction false} RegisteredLongPressRuns(limits: Limits, buttons: seq<Button>, before: seq<Step>,
                                                   handle: nat, button: nat, second: int, callback: Callback,
                                                   press: seq<Step>)
    requires limits.callbacks >= 1
    requires Register(Exec(Start(limits, buttons), before), handle, button, OnLongPressed(second), callback).1 == Ok
    requires var t := Exec(Start(limits, buttons), Ready(before, handle, button, OnLongPressed(second), callback));
             Pressing(t, handle, button, press)
    ensures var t := Exec(Start(limits, buttons), Ready(before, handle, button, OnLongPressed(second), callback));
            && View(t, handle, button).Some?
            && var list := View(t, handle, button).value.longPressed;
            && list != [] && list[|list| - 1] == LongPressedInfo(second, callback)
            && multiset(Log(Exec(t, press).calls, handle, button, LongPressed))[|list| - 1]
               == multiset(Log(t.calls, handle, button, LongPressed))[|list| - 1]
                  + if second <= Ticks(t, button, press) then 1 else 0
  {
    var t := Exec(Start(limits, buttons), Ready(before, handle, button, OnLongPressed(second), callback));
    ReadyToPress(limits, buttons, before, handle, button, OnLongPressed(second), callback);
    LongPressRunsOnce(t, handle, button, press, |View(t, handle, button).value.longPressed| - 1);
  }

  /** The same for a release callback: the release that ends a press of `n` ticks runs it
      if and only if `min <= n` and `n <= max`, or there is no `max`. */
  lemma {:induction false} RegisteredReleaseRuns(limits: Limits, buttons: seq<Button>, before: seq<Step>,
                                                 handle: nat, button: nat, min: int, max: int, callback: Callback,
                                                 press: seq<Step>, release: Step)
    requires limits.callbacks >= 1
    requires Register(Exec(Start(limits, buttons), before), handle, button, OnReleased(min, max), callback).1 == Ok
    requires var t := Exec(Start(limits, buttons), Ready(before, handle, button, OnReleased(min, max), callback));
             Pressing(t, handle, button, press) && IsEventOf(Exec(t, press), release, button, Released)
    ensures var t := Exec(Start(limits, buttons), Ready(before, handle, button, OnReleased(min, max), callback));
            && View(t, handle, button).Some?
            && var list, n := View(t, handle, button).value.released, Ticks(t, button, press);
            && list != [] && list[|list| - 1] == ReleasedInfo(min, max, callback)
            && exists ran :: Log(Exec(t, press + [release]).calls, handle, button, Released)
                             == Log(t.calls, handle, button, Released) + ran
                             && Increasing(ran) && (|list| - 1 in ran <==> min <= n && (max == 0 || n <= max))
  {
    var t := Exec(Start(limits, buttons), Ready(before, handle, button, OnReleased(min, max), callback));
    ReadyToPress(limits, buttons, before, handle, button, OnReleased(min, max), callback);
    ReleaseRunsWindow(t, handle, button, press, release, |View(t, handle, button).value.released| - 1);
  }
}

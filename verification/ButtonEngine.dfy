/**
 The press engine of the button manager: handles with per-button callbacks, and the
 events that run them.

 Lists are sequences in list order; a handle is known by its number, which stands for
 the address of its cell.  The operations hold the manager's mutex.  The button thread
 notes an event's state in the button without it, and then runs the callbacks in a
 locked section.
 */
module ButtonEngine {
  import opened Common

  const MAX_START_SECOND: int := 120
  const MAX_END_SECOND: int := 120
  const MAX_LONG_PRESSED_SECOND: int := 120

  datatype ButtonState = Unknown | Pressed | Released | LongPressed

  datatype Status = Ok | HandleError | ParamError | ResourceError | StateTransitionError

  datatype Callback = Callback(callee: nat, userData: int)

  datatype ReleasedInfo = ReleasedInfo(min: int, max: int, callback: Callback)

  datatype LongPressedInfo = LongPressedInfo(second: int, callback: Callback)

  datatype HandleData = HandleData(
    button: nat,
    ticks: nat,                       // seconds the button has been held
    pressed: seq<Callback>,
    released: seq<ReleasedInfo>,
    longPressed: seq<LongPressedInfo>)

  datatype Frame = Frame(handle: nat, enabled: bool, data: seq<HandleData>)

  datatype Button = Button(id: nat, state: ButtonState)

  /** The limits of the configuration. */
  datatype Limits = Limits(handles: nat, callbacks: nat)

  /** A callback that ran: whose, and which entry of its list. */
  datatype Call = Call(handle: nat, button: nat, kind: ButtonState, index: nat)

  datatype State = State(
    limits: Limits,
    buttons: seq<Button>,
    frames: seq<Frame>,
    created: nat,         // handles created so far
    event: Option<nat>,   // the thread is about to run the event of the button here in the list
    calls: seq<Call>)     // history

  // --------------------------------------------------------------- due callbacks

  /** The code's test of a released callback. */
  predicate ReleaseTest(info: ReleasedInfo, ticks: nat) {
    || (info.min == 0 && info.max == 0)
    || (info.min <= ticks && info.max == 0)
    || (info.min <= ticks && ticks <= info.max)
  }

  function ReleasedDue(infos: seq<ReleasedInfo>, ticks: nat): seq<nat> {
    if infos == [] then []
    else
      var n := |infos| - 1;
      ReleasedDue(infos[..n], ticks) + if ReleaseTest(infos[n], ticks) then [n] else []
  }

  function LongPressedDue(infos: seq<LongPressedInfo>, ticks: nat): seq<nat> {
    if infos == [] then []
    else
      var n := |infos| - 1;
      LongPressedDue(infos[..n], ticks) + if infos[n].second == ticks then [n] else []
  }

  function Numbers(n: nat): (r: seq<nat>)
    ensures |r| == n && forall i :: 0 <= i < n ==> r[i] == i
  {
    seq(n, i => i)
  }

  /** The entries of one button's lists that an event runs, in list order, and the
      data after it. */
  function Execute(data: HandleData, state: ButtonState): (r: (HandleData, seq<nat>))
    ensures r.0 == data.(ticks := r.0.ticks)
  {
    match state
    case Pressed => (data, Numbers(|data.pressed|))
    case Released => (data.(ticks := 0), ReleasedDue(data.released, data.ticks))
    case LongPressed => (data.(ticks := data.ticks + 1), LongPressedDue(data.longPressed, data.ticks + 1))
    case Unknown => (data, [])
  }

  function Tagged(handle: nat, button: nat, kind: ButtonState, indices: seq<nat>): (r: seq<Call>)
    ensures |r| == |indices| && forall i :: 0 <= i < |r| ==> r[i] == Call(handle, button, kind, indices[i])
  {
    seq(|indices|, i requires 0 <= i < |indices| => Call(handle, button, kind, indices[i]))
  }

  function IsFor(button: nat): HandleData -> bool {
    (d: HandleData) => d.button == button
  }

  /** The first entry for a button; the length of the list if there is none. */
  function Find(data: seq<HandleData>, button: nat): (r: nat)
    ensures r <= |data| && (r < |data| ==> data[r].button == button)
    ensures forall j :: 0 <= j < r ==> data[j].button != button
  {
    FirstFrom(IsFor(button), data, 0)
  }

  function FrameAfter(f: Frame, button: nat, state: ButtonState): Frame {
    var i := Find(f.data, button);
    if !f.enabled || i == |f.data| then f
    else f.(data := f.data[i := Execute(f.data[i], state).0])
  }

  function FrameCalls(f: Frame, button: nat, state: ButtonState): seq<Call> {
    var i := Find(f.data, button);
    if !f.enabled || i == |f.data| then []
    else Tagged(f.handle, button, state, Execute(f.data[i], state).1)
  }

  function AfterEvent(button: nat, state: ButtonState): Frame -> Frame {
    (f: Frame) => FrameAfter(f, button, state)
  }

  function CallsOfEvent(button: nat, state: ButtonState): Frame -> seq<Call> {
    (f: Frame) => FrameCalls(f, button, state)
  }

  function AllAfter(frames: seq<Frame>, button: nat, state: ButtonState): seq<Frame> {
    Map(AfterEvent(button, state), frames)
  }

  /** The calls of an event, handle by handle. */
  function AllCalls(frames: seq<Frame>, button: nat, state: ButtonState): seq<Call> {
    FlatMap(CallsOfEvent(button, state), frames)
  }

  // ------------------------------------------------------------------ operations

  datatype Kind = OnPressed | OnReleased(min: int, max: int) | OnLongPressed(second: int)

  predicate ParamsOk(kind: Kind) {
    match kind
    case OnPressed => true
    case OnReleased(min, max) =>
      0 <= min <= MAX_START_SECOND && 0 <= max <= MAX_END_SECOND && (max == 0 || min <= max)
    case OnLongPressed(second) => 0 < second <= MAX_LONG_PRESSED_SECOND
  }

  function NewData(button: nat): HandleData {
    HandleData(button, 0, [], [], [])
  }

  function ListSize(data: HandleData, kind: Kind): nat {
    match kind
    case OnPressed => |data.pressed|
    case OnReleased(_, _) => |data.released|
    case OnLongPressed(_) => |data.longPressed|
  }

  function Added(data: HandleData, kind: Kind, callback: Callback): HandleData {
    match kind
    case OnPressed => data.(pressed := data.pressed + [callback])
    case OnReleased(min, max) => data.(released := data.released + [ReleasedInfo(min, max, callback)])
    case OnLongPressed(second) => data.(longPressed := data.longPressed + [LongPressedInfo(second, callback)])
  }

  function Emptied(data: HandleData, kind: Kind): HandleData {
    match kind
    case OnPressed => data.(pressed := [])
    case OnReleased(_, _) => data.(released := [])
    case OnLongPressed(_) => data.(longPressed := [])
  }

  function CallbackCount(data: HandleData): nat {
    |data.pressed| + |data.released| + |data.longPressed|
  }

  /** The list with an entry for the button, made at the end if there is none. */
  function Prepared(data: seq<HandleData>, button: nat): seq<HandleData> {
    if Find(data, button) == |data| then data + [NewData(button)] else data
  }

  function IsHandle(handle: nat): Frame -> bool {
    (f: Frame) => f.handle == handle
  }

  /** The place of a handle; the length of the list if it is not valid. */
  function FindFrame(frames: seq<Frame>, handle: nat): (r: nat)
    ensures r <= |frames| && (r < |frames| ==> frames[r].handle == handle)
    ensures forall j :: 0 <= j < r ==> frames[j].handle != handle
  {
    FirstFrom(IsHandle(handle), frames, 0)
  }

  predicate HasButton(s: State, button: nat) {
    exists j :: 0 <= j < |s.buttons| && s.buttons[j].id == button
  }

  function CreateHandle(s: State): (State, Status) {
    if |s.frames| >= s.limits.handles then (s, ResourceError)
    else (s.(frames := s.frames + [Frame(s.created, false, [])], created := s.created + 1), Ok)
  }

  function DestroyHandle(s: State, handle: nat): (State, Status) {
    var i := FindFrame(s.frames, handle);
    if i == |s.frames| then (s, HandleError) else (s.(frames := Without(s.frames, i)), Ok)
  }

  function Register(s: State, handle: nat, button: nat, kind: Kind, callback: Callback): (State, Status) {
    var i := FindFrame(s.frames, handle);
    if !HasButton(s, button) || !ParamsOk(kind) then (s, ParamError)
    else if i == |s.frames| then (s, HandleError)
    else if s.frames[i].enabled then (s, StateTransitionError)
    else
      var data := Prepared(s.frames[i].data, button);
      var k := Find(data, button);
      // A new entry stays even when the list is full.
      if k < |data| && ListSize(data[k], kind) < s.limits.callbacks then
        (s.(frames := s.frames[i := s.frames[i].(data := data[k := Added(data[k], kind, callback)])]), Ok)
      else (s.(frames := s.frames[i := s.frames[i].(data := data)]), ResourceError)
  }

  function Unregister(s: State, handle: nat, button: nat, kind: Kind): (State, Status) {
    var i := FindFrame(s.frames, handle);
    if !HasButton(s, button) then (s, ParamError)
    else if i == |s.frames| then (s, HandleError)
    else if s.frames[i].enabled then (s, StateTransitionError)
    else
      var data := s.frames[i].data;
      var k := Find(data, button);
      if k == |data| || ListSize(data[k], kind) == 0 then (s, ResourceError)
      else
        var emptied := Emptied(data[k], kind);
        (s.(frames := s.frames[i := s.frames[i].(
           data := if CallbackCount(emptied) == 0 then Without(data, k) else data[k := emptied])]), Ok)
  }

  function TicksReset(data: seq<HandleData>): (r: seq<HandleData>)
    ensures |r| == |data| && forall i :: 0 <= i < |r| ==> r[i] == data[i].(ticks := 0)
  {
    seq(|data|, i requires 0 <= i < |data| => data[i].(ticks := 0))
  }

  predicate IsHeld(state: ButtonState) {
    state == Pressed || state == LongPressed
  }

  /** The pressed callbacks of the buttons held while a handle is enabled. */
  function HeldCalls(buttons: seq<Button>, f: Frame): seq<Call> {
    if buttons == [] then []
    else
      var b := buttons[|buttons| - 1];
      var i := Find(f.data, b.id);
      HeldCalls(buttons[..|buttons| - 1], f)
      + if IsHeld(b.state) && i < |f.data| then Tagged(f.handle, b.id, Pressed, Numbers(|f.data[i].pressed|)) else []
  }

  function SetCallbackExecutableState(s: State, handle: nat, enable: bool): (State, Status) {
    var i := FindFrame(s.frames, handle);
    if i == |s.frames| then (s, HandleError)
    else if s.frames[i].enabled == enable then (s, StateTransitionError)
    else
      var f := s.frames[i].(enabled := enable);
      if enable then (s.(frames := s.frames[i := f], calls := s.calls + HeldCalls(s.buttons, f)), Ok)
      else (s.(frames := s.frames[i := f.(data := TicksReset(f.data))]), Ok)
  }

  /** A first release of a button that was never pressed is not processed. */
  predicate IsProcessed(button: Button, state: ButtonState) {
    !(button.state == Unknown && state == Released)
  }

  /** An event of the button at position `j` of the button list arrives: the button's
      state changes, and the thread decides whether to go on. */
  function Arrived(s: State, j: nat, state: ButtonState): State
    requires j < |s.buttons|
  {
    var b := s.buttons[j];
    s.(buttons := s.buttons[j := b.(state := state)], event := if IsProcessed(b, state) then Some(j) else None)
  }

  predicate IsPending(s: State) {
    s.event.Some? && s.event.value < |s.buttons|
  }

  /** The thread runs the callbacks for the state it finds in the button. */
  function Ran(s: State): State
    requires IsPending(s)
  {
    var b := s.buttons[s.event.value];
    s.(frames := AllAfter(s.frames, b.id, b.state),
       calls := s.calls + AllCalls(s.frames, b.id, b.state),
       event := None)
  }

  // ------------------------------------------------------------------- in place

  /** The mutable lists, and the functions that loop over them. */
  class ButtonManager {
    const limits: Limits
    var buttons: seq<Button>
    var frames: seq<Frame>
    var created: nat
    var event: Option<nat>
    var calls: seq<Call>

    ghost function Contents(): State
      reads this
    {
      State(limits, buttons, frames, created, event, calls)
    }

    constructor (limits: Limits, buttons: seq<Button>)
      ensures Contents() == State(limits, buttons, [], 0, None, [])
    {
      this.limits := limits;
      this.buttons, frames, created, event, calls := buttons, [], 0, None, [];
    }

    method GetHandleData(data: seq<HandleData>, button: nat) returns (i: nat)
      ensures i == Find(data, button)
    {
      i := 0;
      while i < |data|
        invariant i <= |data|
        invariant FirstFrom(IsFor(button), data, i) == Find(data, button)
      {
        if data[i].button == button {
          return;
        }
        i := i + 1;
      }
    }

    method ExecuteReleasedCallback(infos: seq<ReleasedInfo>, ticks: nat) returns (ran: seq<nat>)
      ensures ran == ReleasedDue(infos, ticks)
    {
      ran := [];
      var i := 0;
      while i < |infos|
        invariant 0 <= i <= |infos|
        invariant ran == ReleasedDue(infos[..i], ticks)
      {
        assert infos[..i + 1][..i] == infos[..i];
        if (infos[i].min == 0 && infos[i].max == 0)
           || (infos[i].min <= ticks && infos[i].max == 0)
           || (infos[i].min <= ticks && ticks <= infos[i].max)
        {
          ran := ran + [i];
        }
        i := i + 1;
      }
      assert infos[..i] == infos;
    }

    method ExecuteLongPressedCallback(infos: seq<LongPressedInfo>, ticks: nat) returns (ran: seq<nat>)
      ensures ran == LongPressedDue(infos, ticks)
    {
      ran := [];
      var i := 0;
      while i < |infos|
        invariant 0 <= i <= |infos|
        invariant ran == LongPressedDue(infos[..i], ticks)
      {
        assert infos[..i + 1][..i] == infos[..i];
        if infos[i].second == ticks {
          ran := ran + [i];
        }
        i := i + 1;
      }
      assert infos[..i] == infos;
    }

    method ExecuteButtonCallback(data: HandleData, state: ButtonState)
      returns (after: HandleData, ran: seq<nat>)
      ensures (after, ran) == Execute(data, state)
    {
      match state
      case Pressed =>
        after, ran := data, Numbers(|data.pressed|);
      case Released =>
        ran := ExecuteReleasedCallback(data.released, data.ticks);
        after := data.(ticks := 0);
      case LongPressed =>
        after := data.(ticks := data.ticks + 1);
        ran := ExecuteLongPressedCallback(after.longPressed, after.ticks);
      case Unknown =>
        after, ran := data, [];
    }

    method ExecuteButtonCallbackOf(i: nat, button: nat, state: ButtonState)
      requires i < |frames|
      modifies this`frames, this`calls
      ensures frames == old(frames)[i := FrameAfter(old(frames)[i], button, state)]
      ensures calls == old(calls) + FrameCalls(old(frames)[i], button, state)
    {
      var f := frames[i];
      if f.enabled {
        var k := GetHandleData(f.data, button);
        if k < |f.data| {
          var after, ran := ExecuteButtonCallback(f.data[k], state);
          frames := frames[i := f.(data := f.data[k := after])];
          calls := calls + Tagged(f.handle, button, state, ran);
        }
      }
    }

    method ExecuteButtonCallbackAllHandles(button: nat, state: ButtonState)
      modifies this`frames, this`calls
      ensures frames == AllAfter(old(frames), button, state)
      ensures calls == old(calls) + AllCalls(old(frames), button, state)
    {
      ghost var was, before := frames, calls;
      ghost var after := AfterEvent(button, state);
      ghost var ran := CallsOfEvent(button, state);
      var i := 0;
      while i < |frames|
        invariant 0 <= i <= |frames| == |was|
        invariant frames == MapUpTo(after, was, i)
        invariant calls == FlatMapUpTo(ran, before, was, i)
      {
        ExecuteButtonCallbackOf(i, button, state);
        i := i + 1;
      }
      MappedAll(after, ran, before, was);
    }

    method PreProcessExecuteButtonEvent(j: nat, state: ButtonState) returns (process: bool)
      requires j < |buttons|
      modifies this`buttons, this`event
      ensures Contents() == Arrived(old(Contents()), j, state)
      ensures process == event.Some?
    {
      var b := buttons[j];
      process := !(b.state == Unknown && state == Released);
      buttons := buttons[j := b.(state := state)];
      event := if process then Some(j) else None;
    }

    method ExecuteButtonEvent()
      requires IsPending(Contents())
      modifies this`frames, this`event, this`calls
      ensures Contents() == Ran(old(Contents()))
    {
      var b := buttons[event.value];
      ExecuteButtonCallbackAllHandles(b.id, b.state);
      event := None;
    }

    // The operations of the interface, each under the mutex.

    method GetButtonData(button: nat) returns (found: bool)
      ensures found == HasButton(Contents(), button)
    {
      found := false;
      var j := 0;
      while j < |buttons|
        invariant 0 <= j <= |buttons|
        invariant found == exists k :: 0 <= k < j && buttons[k].id == button
      {
        found := found || buttons[j].id == button;
        j := j + 1;
      }
    }

    method VerifyHandle(handle: nat) returns (i: nat)
      ensures i == FindFrame(frames, handle)
    {
      i := 0;
      while i < |frames|
        invariant i <= |frames|
        invariant FirstFrom(IsHandle(handle), frames, i) == FindFrame(frames, handle)
      {
        if frames[i].handle == handle {
          return;
        }
        i := i + 1;
      }
    }

    method Create() returns (status: Status)
      modifies this
      ensures (Contents(), status) == CreateHandle(old(Contents()))
    {
      if |frames| >= limits.handles {
        return ResourceError;
      }
      frames := frames + [Frame(created, false, [])];
      created := created + 1;
      status := Ok;
    }

    method Destroy(handle: nat) returns (status: Status)
      modifies this
      ensures (Contents(), status) == DestroyHandle(old(Contents()), handle)
    {
      var i := VerifyHandle(handle);
      if i == |frames| {
        return HandleError;
      }
      frames := frames[..i] + frames[i + 1..];
      status := Ok;
    }

    method RegisterNotificationCallback(handle: nat, button: nat, kind: Kind, callback: Callback)
      returns (status: Status)
      modifies this
      ensures (Contents(), status) == Register(old(Contents()), handle, button, kind, callback)
    {
      var known := GetButtonData(button);
      if !known || !ParamsOk(kind) {
        return ParamError;
      }
      var i := VerifyHandle(handle);
      if i == |frames| {
        return HandleError;
      }
      if frames[i].enabled {
        return StateTransitionError;
      }
      var data := frames[i].data;
      var k := GetHandleData(data, button);
      if k == |data| {
        data := data + [NewData(button)];
        frames := frames[i := frames[i].(data := data)];
      }
      assert data == Prepared(old(frames)[i].data, button);
      assert frames == old(frames)[i := old(frames)[i].(data := data)];
      k := GetHandleData(data, button);
      if k == |data| || ListSize(data[k], kind) >= limits.callbacks {
        return ResourceError;
      }
      frames := frames[i := frames[i].(data := data[k := Added(data[k], kind, callback)])];
      assert frames == old(frames)[i := old(frames)[i].(data := data[k := Added(data[k], kind, callback)])];
      status := Ok;
    }

    method UnregisterNotificationCallback(handle: nat, button: nat, kind: Kind) returns (status: Status)
      modifies this
      ensures (Contents(), status) == Unregister(old(Contents()), handle, button, kind)
    {
      var known := GetButtonData(button);
      if !known {
        return ParamError;
      }
      var i := VerifyHandle(handle);
      if i == |frames| {
        return HandleError;
      }
      if frames[i].enabled {
        return StateTransitionError;
      }
      var data := frames[i].data;
      var k := GetHandleData(data, button);
      if k == |data| || ListSize(data[k], kind) == 0 {
        return ResourceError;
      }
      var emptied := Emptied(data[k], kind);
      if |emptied.pressed| + |emptied.released| + |emptied.longPressed| == 0 {
        data := data[..k] + data[k + 1..];
      } else {
        data := data[k := emptied];
      }
      frames := frames[i := frames[i].(data := data)];
      status := Ok;
    }

    method ResetLongPressedTime(data: seq<HandleData>) returns (reset: seq<HandleData>)
      ensures reset == TicksReset(data)
    {
      reset := data;
      var k := 0;
      while k < |data|
        invariant 0 <= k <= |data| == |reset|
        invariant forall l :: 0 <= l < k ==> reset[l] == data[l].(ticks := 0)
        invariant forall l :: k <= l < |data| ==> reset[l] == data[l]
      {
        reset := reset[k := reset[k].(ticks := 0)];
        k := k + 1;
      }
    }

    method CheckButtonState(f: Frame) returns (ran: seq<Call>)
      ensures ran == HeldCalls(buttons, f)
    {
      ran := [];
      var j := 0;
      while j < |buttons|
        invariant 0 <= j <= |buttons|
        invariant ran == HeldCalls(buttons[..j], f)
      {
        assert buttons[..j + 1][..j] == buttons[..j];
        var b := buttons[j];
        if b.state == Pressed || b.state == LongPressed {
          var i := GetHandleData(f.data, b.id);
          if i < |f.data| {
            ran := ran + Tagged(f.handle, b.id, Pressed, Numbers(|f.data[i].pressed|));
          }
        }
        j := j + 1;
      }
      assert buttons[..j] == buttons;
    }

    method SetExecutable(handle: nat, enable: bool) returns (status: Status)
      modifies this
      ensures (Contents(), status) == SetCallbackExecutableState(old(Contents()), handle, enable)
    {
      var i := VerifyHandle(handle);
      if i == |frames| {
        return HandleError;
      }
      if frames[i].enabled == enable {
        return StateTransitionError;
      }
      var f := frames[i].(enabled := enable);
      if enable {
        frames := frames[i := f];
        var ran := CheckButtonState(f);
        calls := calls + ran;
      } else {
        var data := ResetLongPressedTime(f.data);
        frames := frames[i := f.(data := data)];
      }
      status := Ok;
    }
  }
}

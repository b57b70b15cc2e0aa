/**
 The DLOG pipeline as an interleaved transition system.

 Any number of logging threads write; a thread that retires a plane reports it
 afterwards, outside the locks, in separate reads of shared variables; the DLOG
 thread receives the report, copies the plane without a lock and then clears it
 under the lock.  A step that is not enabled leaves the state alone, so the
 theorems below hold of every sequence of steps.
 */
module DlogPipeline {
  import opened Common
  import opened DlogBuffer

  /** One accepted log message; `at` is its arrival time in seconds. */
  datatype Log = Log(bytes: seq<Byte>, critical: bool, at: int)

  /** A thread between retiring a plane and reporting it.  The fields of the
      report are read one at a time. */
  datatype Sender = Sender(byCollector: bool, plane: Option<nat>, size: Option<nat>, critical: Option<bool>)

  datatype Report = Report(plane: nat, size: nat, critical: bool)

  datatype Payload = Payload(bytes: seq<Byte>, critical: bool)

  /** The DLOG thread: waiting, reporting a plane its own tick retired, holding a
      received report, or holding a copy that is not yet matched by a clear. */
  datatype Collector = Idle | Reporting | Received(report: Report) | Copied(payload: Payload)

  datatype State = State(
    cap: nat,
    timeout: int,
    now: int,
    planes: Planes,
    senders: seq<Sender>,
    queue: seq<Report>,
    collector: Collector,
    collected: seq<Payload>,
    // history
    logs: seq<seq<Log>>,       // the logs held by each plane
    batches: seq<seq<Log>>,    // the logs each collected payload was made from
    accepted: seq<Log>,        // every log whose write succeeded, in order
    swapped: bool,             // some plane has been retired
    overrun: bool)             // some plane was retired while the other was pending

  datatype Step =
    | WriteLog(bytes: seq<Byte>, isCritical: bool)
    | TickStep
    | ReadPlane(i: nat)
    | ReadSize(i: nat)
    | ReadCritical(i: nat)
    | SendReport(i: nat)
    | SendFails(i: nat)
    | Receive
    | RefuseEmpty
    | Copy(bytes: seq<Byte>)
    | Clear
    | Wait(seconds: nat)

  function Start(cap: nat, timeout: int): State {
    State(cap, timeout, 0, EMPTY_PLANES, [], [], Idle, [], [[], []], [], [], false, false)
  }

  function Bytes(logs: seq<Log>): seq<Byte> {
    if logs == [] then [] else Bytes(logs[..|logs| - 1]) + logs[|logs| - 1].bytes
  }

  function Flatten(batches: seq<seq<Log>>): seq<Log> {
    if batches == [] then [] else Flatten(batches[..|batches| - 1]) + batches[|batches| - 1]
  }

  function AllBytes(payloads: seq<Payload>): seq<Byte> {
    if payloads == [] then []
    else AllBytes(payloads[..|payloads| - 1]) + payloads[|payloads| - 1].bytes
  }

  ghost predicate HasCritical(logs: seq<Log>) {
    exists i :: 0 <= i < |logs| && logs[i].critical
  }

  /** What the history records when the current plane is retired. */
  function Retire(s: State): (t: State)
    requires s.planes.WellFormed() && |s.logs| == 2
    ensures |t.logs| == 2
  {
    var next := 1 - s.planes.cur;
    s.(swapped := true,
       overrun := s.overrun || s.planes.status == HalfUse,
       logs := if s.planes.status == HalfUse then s.logs[next := []] else s.logs)
  }

  ghost predicate Enabled(s: State, step: Step)
  {
    match step
    case WriteLog(_, _) => true
    case TickStep => s.collector == Idle
    case ReadPlane(i) => i < |s.senders|
    case ReadSize(i) => i < |s.senders|
    case ReadCritical(i) => i < |s.senders|
    case SendReport(i) =>
      i < |s.senders| && s.senders[i].plane.Some? && s.senders[i].size.Some? && s.senders[i].critical.Some?
    case SendFails(i) => i < |s.senders|
    case Receive => s.collector == Idle && s.queue != []
    case RefuseEmpty => s.collector.Received? && s.collector.report.size == 0
    case Copy(bytes) =>
      && s.collector.Received? && s.collector.report.size != 0
      && s.collector.report.plane < |s.planes.data|
      && |bytes| == s.collector.report.size
      // Beyond the plane's contents the copy picks up whatever the memory holds.
      && forall k :: 0 <= k < |bytes| && k < |s.planes.data[s.collector.report.plane]|
                     ==> bytes[k] == s.planes.data[s.collector.report.plane][k]
    case Clear => s.collector.Copied?
    case Wait(_) => true
  }

  const NEW_SENDER := Sender(false, None, None, None)

  function Leave(s: State, i: nat): State
    requires i < |s.senders|
  {
    s.(senders := s.senders[..i] + s.senders[i + 1..],
       collector := if s.senders[i].byCollector then Idle else s.collector)
  }

  function WriteStep(s: State, bytes: seq<Byte>, isCritical: bool): (t: State)
    requires s.planes.WellFormed() && |s.logs| == 2
    ensures t.planes.WellFormed() && |t.logs| == 2
  {
    var (planes, result) := Write(s.planes, s.cap, bytes, isCritical, s.now);
    var t := if Fits(s.planes.store[s.planes.cur] + |bytes|, s.cap) then s else Retire(s);
    if result == Rejected then t.(planes := planes)
    else
      var log := Log(bytes, isCritical, s.now);
      t.(planes := planes,
         logs := t.logs[planes.cur := t.logs[planes.cur] + [log]],
         accepted := t.accepted + [log],
         senders := if result == StoredAndFull then t.senders + [NEW_SENDER] else t.senders)
  }

  function TickedStep(s: State): (t: State)
    requires s.planes.WellFormed() && |s.logs| == 2
    ensures t.planes.WellFormed() && |t.logs| == 2
  {
    if TickSwaps(s.planes, s.timeout, s.now) then
      Retire(s).(planes := Tick(s.planes, s.timeout, s.now),
                 senders := s.senders + [NEW_SENDER.(byCollector := true)],
                 collector := Reporting)
    else s
  }

  function SentStep(s: State, i: nat): State
    requires i < |s.senders|
    requires s.senders[i].plane.Some? && s.senders[i].size.Some? && s.senders[i].critical.Some?
  {
    var d := s.senders[i];
    Leave(s, i).(queue := s.queue + [Report(d.plane.value, d.size.value, d.critical.value)])
  }

  function ClearedStep(s: State): (t: State)
    requires s.planes.WellFormed() && |s.logs| == 2 && s.collector.Copied?
    ensures t.planes.WellFormed() && |t.logs| == 2
  {
    s.(planes := ClearOldest(s.planes),
       logs := s.logs[s.planes.oldest := []],
       batches := s.batches + [s.logs[s.planes.oldest]],
       collected := s.collected + [s.collector.payload],
       collector := Idle)
  }

  ghost function Apply(s: State, step: Step): (t: State)
    requires s.planes.WellFormed() && |s.logs| == 2
    ensures t.planes.WellFormed() && |t.logs| == 2
  {
    if !Enabled(s, step) then s else
    match step
    case WriteLog(bytes, isCritical) => WriteStep(s, bytes, isCritical)
    case TickStep => TickedStep(s)
    case ReadPlane(i) =>
      s.(senders := s.senders[i := s.senders[i].(plane := Some(s.planes.oldest))])
    case ReadSize(i) =>
      s.(senders := s.senders[i := s.senders[i].(size := Some(s.planes.retiredSize))])
    case ReadCritical(i) =>
      s.(senders := s.senders[i := s.senders[i].(critical := Some(s.planes.critical[s.planes.oldest]))])
    case SendReport(i) => SentStep(s, i)
    case SendFails(i) => Leave(s, i)
    case Receive => s.(queue := s.queue[1..], collector := Received(s.queue[0]))
    case RefuseEmpty => s.(collector := Idle)
    case Copy(bytes) => s.(collector := Copied(Payload(bytes, s.collector.report.critical)))
    case Clear => ClearedStep(s)
    case Wait(seconds) => s.(now := s.now + seconds)
  }

  ghost function Exec(s: State, steps: seq<Step>): (t: State)
    requires s.planes.WellFormed() && |s.logs| == 2
    ensures t.planes.WellFormed() && |t.logs| == 2
    decreases |steps|
  {
    if steps == [] then s
    else Apply(Exec(s, steps[..|steps| - 1]), steps[|steps| - 1])
  }

  // ---------------------------------------------------------------- invariants

  /** Plane `i` and its counter, critical flag and history agree. */
  ghost predicate PlaneMatchesLogs(s: State, i: nat)
    requires s.planes.WellFormed() && |s.logs| == 2 && i < 2
  {
    && s.planes.data[i] == Bytes(s.logs[i])
    && s.planes.store[i] == |s.planes.data[i]| <= s.cap
    && s.planes.critical[i] == HasCritical(s.logs[i])
    && (|s.logs[i]| >= 2 ==> Fits(s.planes.store[i], s.cap))
  }

  ghost predicate Spare(s: State)
    requires s.planes.WellFormed() && |s.logs| == 2
  {
    s.planes.status == Use ==> s.logs[1 - s.planes.cur] == []
  }

  /** The retired plane is never the one being written. */
  ghost predicate Retired(s: State)
    requires s.planes.WellFormed() && |s.logs| == 2
  {
    if s.swapped then s.planes.oldest == 1 - s.planes.cur
    else
      && s.planes.oldest == s.planes.cur && s.planes.status == Use
      && s.senders == [] && s.queue == [] && s.collector == Idle && !s.overrun
  }

  /** `since` is the arrival of the first critical log of the current plane. */
  ghost predicate CriticalClock(s: State)
    requires s.planes.WellFormed() && |s.logs| == 2
  {
    var logs := s.logs[s.planes.cur];
    && s.planes.pending == HasCritical(logs)
    && (s.planes.pending ==>
         exists f :: 0 <= f < |logs| && logs[f].critical && logs[f].at == s.planes.since
                     && forall k :: 0 <= k < f ==> !logs[k].critical)
    && (forall k :: 0 <= k < |logs| ==> logs[k].at <= s.now)
    && (forall j, k :: 0 <= j < k < |logs| ==> logs[j].at <= logs[k].at)
  }

  /** Every length a report can carry stays inside one plane. */
  ghost predicate SizesInBounds(s: State) {
    && s.planes.retiredSize <= s.cap
    && (forall i :: 0 <= i < |s.senders| && s.senders[i].size.Some? ==> s.senders[i].size.value <= s.cap)
    && (forall i :: 0 <= i < |s.queue| ==> s.queue[i].size <= s.cap && s.queue[i].plane < 2)
    && (forall i :: 0 <= i < |s.senders| && s.senders[i].plane.Some? ==> s.senders[i].plane.value < 2)
    && (s.collector.Received? ==> s.collector.report.size <= s.cap && s.collector.report.plane < 2)
  }

  ghost predicate Safe(s: State) {
    && s.planes.WellFormed() && |s.logs| == 2
    && PlaneMatchesLogs(s, 0) && PlaneMatchesLogs(s, 1)
    && Spare(s) && Retired(s) && CriticalClock(s) && SizesInBounds(s)
  }

  lemma BytesAppend(logs: seq<Log>, log: Log)
    ensures Bytes(logs + [log]) == Bytes(logs) + log.bytes
  {
    assert (logs + [log])[..|logs|] == logs;
  }

  lemma CriticalAppend(logs: seq<Log>, log: Log)
    ensures HasCritical(logs + [log]) <==> HasCritical(logs) || log.critical
  {
    var all := logs + [log];
    if log.critical {
      assert all[|logs|].critical;
    }
    if HasCritical(logs) {
      var i :| 0 <= i < |logs| && logs[i].critical;
      assert all[i].critical;
    }
  }

  lemma SafeAtStart(cap: nat, timeout: int)
    ensures Safe(Start(cap, timeout))
  {
  }

  /** The state between retiring the current plane and pushing into the next. */
  function RetireCurrent(s: State): (t: State)
    requires s.planes.WellFormed() && |s.logs| == 2
    ensures t.planes.WellFormed() && |t.logs| == 2
  {
    Retire(s).(planes := ChangePlane(s.planes).(pending := false))
  }

  function Push(s: State, log: Log): (t: State)
    requires s.planes.WellFormed() && |s.logs| == 2
    ensures t.planes.WellFormed() && |t.logs| == 2
  {
    s.(planes := Append(s.planes, log.bytes, log.critical, log.at),
       logs := s.logs[s.planes.cur := s.logs[s.planes.cur] + [log]],
       accepted := s.accepted + [log])
  }

  lemma WriteSplits(s: State, bytes: seq<Byte>, isCritical: bool)
    requires s.planes.WellFormed() && |s.logs| == 2
    ensures var fits := Fits(s.planes.store[s.planes.cur] + |bytes|, s.cap);
            var t := if fits then s else RetireCurrent(s);
            var log := Log(bytes, isCritical, s.now);
            WriteStep(s, bytes, isCritical) ==
            if |t.planes.data[t.planes.cur]| + |bytes| > s.cap then t
            else if fits then Push(t, log)
            else Push(t, log).(senders := s.senders + [NEW_SENDER])
  {
  }

  lemma RetireKeepsSafe(s: State)
    requires Safe(s)
    ensures Safe(RetireCurrent(s))
    ensures var t := RetireCurrent(s); t.logs[t.planes.cur] == [] && t.swapped
  {
  }

  lemma PushFillsCurrentPlane(s: State, log: Log)
    requires s.planes.WellFormed() && |s.logs| == 2 && PlaneMatchesLogs(s, s.planes.cur)
    ensures var t, c := Push(s, log), s.planes.cur;
            && t.logs[c] == s.logs[c] + [log]
            && t.planes.data[c] == Bytes(t.logs[c])
            && t.planes.store[c] == |t.planes.data[c]| == s.planes.store[c] + |log.bytes|
            && t.planes.critical[c] == HasCritical(t.logs[c])
  {
    BytesAppend(s.logs[s.planes.cur], log);
    CriticalAppend(s.logs[s.planes.cur], log);
  }

  lemma PushSparesOtherPlane(s: State, log: Log)
    requires Safe(s)
    ensures var t, o := Push(s, log), 1 - s.planes.cur;
            && t.logs[o] == s.logs[o]
            && t.planes.data[o] == s.planes.data[o]
            && t.planes.store[o] == s.planes.store[o]
            && t.planes.critical[o] == s.planes.critical[o]
  {
  }

  lemma PushKeepsPlanes(s: State, log: Log)
    requires Safe(s)
    requires |s.planes.data[s.planes.cur]| + |log.bytes| <= s.cap
    requires s.logs[s.planes.cur] == [] || Fits(s.planes.store[s.planes.cur] + |log.bytes|, s.cap)
    ensures PlaneMatchesLogs(Push(s, log), s.planes.cur) && PlaneMatchesLogs(Push(s, log), 1 - s.planes.cur)
  {
    PushFillsCurrentPlane(s, log);
    PushSparesOtherPlane(s, log);
  }

  lemma BothPlanes(s: State, c: nat)
    requires s.planes.WellFormed() && |s.logs| == 2 && c < 2
    requires PlaneMatchesLogs(s, c) && PlaneMatchesLogs(s, 1 - c)
    ensures PlaneMatchesLogs(s, 0) && PlaneMatchesLogs(s, 1)
  {
  }

  lemma PushKeepsClock(s: State, log: Log)
    requires s.planes.WellFormed() && |s.logs| == 2 && CriticalClock(s) && log.at == s.now
    ensures CriticalClock(Push(s, log))
  {
    var logs := s.logs[s.planes.cur];
    CriticalAppend(logs, log);
    var all := logs + [log];
    if HasCritical(logs) {
      var f :| 0 <= f < |logs| && logs[f].critical && logs[f].at == s.planes.since
               && forall k :: 0 <= k < f ==> !logs[k].critical;
      assert all[f].critical && all[f].at == s.planes.since && forall k :: 0 <= k < f ==> !all[k].critical;
    } else if log.critical {
      assert all[|logs|].critical && forall k :: 0 <= k < |logs| ==> !all[k].critical;
    }
  }

  lemma PushKeepsReports(s: State, log: Log)
    requires s.planes.WellFormed() && |s.logs| == 2 && Spare(s) && Retired(s) && SizesInBounds(s)
    ensures Spare(Push(s, log)) && Retired(Push(s, log)) && SizesInBounds(Push(s, log))
  {
  }

  lemma PushKeepsSafe(s: State, log: Log)
    requires Safe(s) && log.at == s.now
    requires |s.planes.data[s.planes.cur]| + |log.bytes| <= s.cap
    requires s.logs[s.planes.cur] == [] || Fits(s.planes.store[s.planes.cur] + |log.bytes|, s.cap)
    ensures Safe(Push(s, log))
  {
    PushKeepsPlanes(s, log);
    PushKeepsClock(s, log);
    PushKeepsReports(s, log);
    BothPlanes(Push(s, log), s.planes.cur);
    SafeFromParts(Push(s, log));
  }

  lemma SafeFromParts(s: State)
    requires s.planes.WellFormed() && |s.logs| == 2
    requires PlaneMatchesLogs(s, 0) && PlaneMatchesLogs(s, 1)
    requires Spare(s) && Retired(s) && CriticalClock(s) && SizesInBounds(s)
    ensures Safe(s)
  {
  }

  lemma AnnounceKeepsSafe(s: State)
    requires Safe(s) && s.swapped
    ensures Safe(s.(senders := s.senders + [NEW_SENDER]))
  {
  }

  lemma FittingWriteKeepsSafe(s: State, bytes: seq<Byte>, isCritical: bool)
    requires Safe(s) && Fits(s.planes.store[s.planes.cur] + |bytes|, s.cap)
    ensures Safe(WriteStep(s, bytes, isCritical))
  {
    WriteSplits(s, bytes, isCritical);
    if |s.planes.data[s.planes.cur]| + |bytes| <= s.cap {
      PushKeepsSafe(s, Log(bytes, isCritical, s.now));
    }
  }

  lemma FullWriteKeepsSafe(s: State, bytes: seq<Byte>, isCritical: bool)
    requires Safe(s) && !Fits(s.planes.store[s.planes.cur] + |bytes|, s.cap)
    ensures Safe(WriteStep(s, bytes, isCritical))
  {
    WriteSplits(s, bytes, isCritical);
    RetireKeepsSafe(s);
    var t, log := RetireCurrent(s), Log(bytes, isCritical, s.now);
    if |t.planes.data[t.planes.cur]| + |bytes| <= s.cap {
      PushKeepsSafe(t, log);
      AnnounceKeepsSafe(Push(t, log));
    }
  }

  lemma TickKeepsSafe(s: State)
    requires Safe(s)
    ensures Safe(TickedStep(s))
  {
    RetireKeepsSafe(s);
  }

  /** A sender that learns another field of its report. */
  lemma SenderKeepsSafe(s: State, i: nat, d: Sender)
    requires Safe(s) && i < |s.senders|
    requires (d.size.Some? ==> d.size.value <= s.cap) && (d.plane.Some? ==> d.plane.value < 2)
    ensures Safe(s.(senders := s.senders[i := d]))
  {
  }

  lemma ReadKeepsSafe(s: State, step: Step)
    requires Safe(s)
    requires step.ReadPlane? || step.ReadSize? || step.ReadCritical?
    ensures Safe(Apply(s, step))
  {
    if Enabled(s, step) {
      SenderKeepsSafe(s, step.i, Apply(s, step).senders[step.i]);
    }
  }

  lemma LeaveKeepsSafe(s: State, i: nat)
    requires Safe(s) && i < |s.senders|
    ensures Safe(Leave(s, i))
  {
  }

  lemma SendKeepsSafe(s: State, i: nat)
    requires Safe(s) && Enabled(s, SendReport(i))
    ensures Safe(SentStep(s, i))
  {
    LeaveKeepsSafe(s, i);
  }

  lemma ReportKeepsSafe(s: State, step: Step)
    requires Safe(s)
    requires step.ReadPlane? || step.ReadSize? || step.ReadCritical? || step.SendReport? || step.SendFails?
    ensures Safe(Apply(s, step))
  {
    if step.SendReport? {
      if Enabled(s, step) { SendKeepsSafe(s, step.i); }
    } else if step.SendFails? {
      if Enabled(s, step) { LeaveKeepsSafe(s, step.i); }
    } else {
      ReadKeepsSafe(s, step);
    }
  }

  lemma ClearKeepsSafe(s: State)
    requires Safe(s) && s.collector.Copied?
    ensures Safe(ClearedStep(s))
  {
  }

  lemma ReceiveKeepsSafe(s: State)
    requires Safe(s) && s.collector == Idle && s.queue != []
    ensures Safe(s.(queue := s.queue[1..], collector := Received(s.queue[0])))
  {
  }

  lemma CopyKeepsSafe(s: State, collector: Collector)
    requires Safe(s) && s.collector.Received? && (collector == Idle || collector.Copied?)
    ensures Safe(s.(collector := collector))
  {
  }

  lemma WaitKeepsSafe(s: State, seconds: nat)
    requires Safe(s)
    ensures Safe(s.(now := s.now + seconds))
  {
  }

  lemma CollectKeepsSafe(s: State, step: Step)
    requires Safe(s) && Enabled(s, step)
    requires step.Receive? || step.RefuseEmpty? || step.Copy? || step.Clear? || step.Wait?
    ensures Safe(Apply(s, step))
  {
    match step {
      case Receive => ReceiveKeepsSafe(s);
      case RefuseEmpty => CopyKeepsSafe(s, Idle);
      case Copy(bytes) => CopyKeepsSafe(s, Copied(Payload(bytes, s.collector.report.critical)));
      case Clear => ClearKeepsSafe(s);
      case Wait(seconds) => WaitKeepsSafe(s, seconds);
    }
  }

  lemma StepKeepsSafe(s: State, step: Step)
    requires Safe(s)
    ensures Safe(Apply(s, step))
  {
    match step
    case WriteLog(bytes, isCritical) =>
      if Fits(s.planes.store[s.planes.cur] + |bytes|, s.cap) {
        FittingWriteKeepsSafe(s, bytes, isCritical);
      } else {
        FullWriteKeepsSafe(s, bytes, isCritical);
      }
    case TickStep => TickKeepsSafe(s);
    case ReadPlane(_) => ReportKeepsSafe(s, step);
    case ReadSize(_) => ReportKeepsSafe(s, step);
    case ReadCritical(_) => ReportKeepsSafe(s, step);
    case SendReport(_) => ReportKeepsSafe(s, step);
    case SendFails(_) => ReportKeepsSafe(s, step);
    case Receive => if Enabled(s, step) { CollectKeepsSafe(s, step); }
    case RefuseEmpty => if Enabled(s, step) { CollectKeepsSafe(s, step); }
    case Copy(_) => if Enabled(s, step) { CollectKeepsSafe(s, step); }
    case Clear => if Enabled(s, step) { CollectKeepsSafe(s, step); }
    case Wait(_) => if Enabled(s, step) { CollectKeepsSafe(s, step); }
  }

  lemma {:induction false} RunIsSafe(cap: nat, timeout: int, steps: seq<Step>)
    ensures Safe(Exec(Start(cap, timeout), steps))
    decreases |steps|
  {
    if steps == [] {
      SafeAtStart(cap, timeout);
    } else {
      RunIsSafe(cap, timeout, steps[..|steps| - 1]);
      StepKeepsSafe(Exec(Start(cap, timeout), steps[..|steps| - 1]), steps[|steps| - 1]);
    }
  }

  // ------------------------------------------------- safety, overruns included

  ghost predicate PlanesSeparate(s: State)
    requires s.planes.WellFormed()
  {
    && (s.swapped ==> s.planes.oldest == 1 - s.planes.cur)
    && (s.planes.status == Use ==>
         s.planes.data[1 - s.planes.cur] == [] && !s.planes.critical[1 - s.planes.cur])
    && s.planes.store == [|s.planes.data[0]|, |s.planes.data[1]|]
  }

  lemma SafePlanesAreSeparate(s: State)
    requires Safe(s)
    ensures PlanesSeparate(s)
  {
  }

  /** In every interleaving, once a plane has been retired the retired plane is
      not the one being written, a spare plane is empty and not critical, and
      each counter is its plane's length. */
  lemma PlanesStaySeparate(cap: nat, timeout: int, steps: seq<Step>)
    ensures PlanesSeparate(Exec(Start(cap, timeout), steps))
  {
    RunIsSafe(cap, timeout, steps);
    SafePlanesAreSeparate(Exec(Start(cap, timeout), steps));
  }

  /** The current plane, its counter, its flag and its logs are the same. */
  ghost predicate SameCurrentPlane(s: State, t: State)
    requires s.planes.WellFormed() && t.planes.WellFormed() && |s.logs| == 2 && |t.logs| == 2
  {
    && t.planes.cur == s.planes.cur
    && t.planes.data[t.planes.cur] == s.planes.data[s.planes.cur]
    && t.planes.store[t.planes.cur] == s.planes.store[s.planes.cur]
    && t.planes.critical[t.planes.cur] == s.planes.critical[s.planes.cur]
    && t.logs[t.planes.cur] == s.logs[s.planes.cur]
  }

  lemma ClearSpares(s: State)
    requires Safe(s) && s.collector.Copied?
    ensures SameCurrentPlane(s, ClearedStep(s))
  {
  }

  /** The DLOG thread never touches the plane being written, however late its
      clear comes. */
  lemma {:induction false} ClearSparesCurrentPlane(cap: nat, timeout: int, steps: seq<Step>)
    requires Exec(Start(cap, timeout), steps).collector.Copied?
    ensures SameCurrentPlane(Exec(Start(cap, timeout), steps), Exec(Start(cap, timeout), steps + [Clear]))
  {
    RunIsSafe(cap, timeout, steps);
    ClearSpares(Exec(Start(cap, timeout), steps));
    ExecSnoc(Start(cap, timeout), steps, Clear);
  }

  /** No critical log of the current plane is as old as the timeout. */
  ghost predicate NoStaleCriticalLog(s: State)
    requires s.planes.WellFormed() && |s.logs| == 2
  {
    var logs := s.logs[s.planes.cur];
    forall k :: 0 <= k < |logs| && logs[k].critical ==> s.now - logs[k].at < s.timeout
  }

  lemma QuietTickMeetsDeadline(s: State)
    requires Safe(s) && !TickSwaps(s.planes, s.timeout, s.now)
    ensures NoStaleCriticalLog(s)
  {
    var logs := s.logs[s.planes.cur];
    forall k | 0 <= k < |logs| && logs[k].critical ensures s.now - logs[k].at < s.timeout {
      assert HasCritical(logs);
      var f :| 0 <= f < |logs| && logs[f].critical && logs[f].at == s.planes.since
               && forall j :: 0 <= j < f ==> !logs[j].critical;
      assert logs[f].at <= logs[k].at;
    }
  }

  lemma TickMeetsDeadline(s: State)
    requires Safe(s)
    ensures NoStaleCriticalLog(TickedStep(s))
  {
    if TickSwaps(s.planes, s.timeout, s.now) {
      RetireKeepsSafe(s);
    } else {
      QuietTickMeetsDeadline(s);
    }
  }

  /** No critical log outlives a tick by more than the timeout, and the pending
      flag says exactly whether the current plane holds one. */
  lemma CriticalDeadline(cap: nat, timeout: int, steps: seq<Step>)
    requires Exec(Start(cap, timeout), steps).collector == Idle
    ensures var t := Apply(Exec(Start(cap, timeout), steps), TickStep);
            && t.timeout == timeout
            && (t.planes.pending <==> HasCritical(t.logs[t.planes.cur]))
            && NoStaleCriticalLog(t)
  {
    var s := Exec(Start(cap, timeout), steps);
    RunIsSafe(cap, timeout, steps);
    ParametersAreFixed(cap, timeout, steps);
    StepKeepsParameters(s, TickStep);
    TickKeepsSafe(s);
    TickMeetsDeadline(s);
  }

  lemma StepKeepsParameters(s: State, step: Step)
    requires s.planes.WellFormed() && |s.logs| == 2
    ensures Apply(s, step).timeout == s.timeout && Apply(s, step).cap == s.cap
  {
  }

  lemma {:induction false} ParametersAreFixed(cap: nat, timeout: int, steps: seq<Step>)
    ensures Exec(Start(cap, timeout), steps).timeout == timeout
    ensures Exec(Start(cap, timeout), steps).cap == cap
    decreases |steps|
  {
    if steps != [] {
      ParametersAreFixed(cap, timeout, steps[..|steps| - 1]);
      StepKeepsParameters(Exec(Start(cap, timeout), steps[..|steps| - 1]), steps[|steps| - 1]);
    }
  }

  // ---------------------------------------------------------------- capacity

  /** Every accepted log passes the capacity test on an empty plane. */
  ghost predicate LogsFitAlone(s: State) {
    Fits(0, s.cap) && forall i :: 0 <= i < |s.accepted| ==> Fits(|s.accepted[i].bytes|, s.cap)
  }

  ghost predicate Roomy(s: State, n: nat) {
    LogsFitAlone(s) ==> Fits(n, s.cap)
  }

  /** Plane lengths and every length on its way to the DLOG thread. */
  ghost predicate RoomEverywhere(s: State)
    requires s.planes.WellFormed()
  {
    && Roomy(s, s.planes.store[0]) && Roomy(s, s.planes.store[1]) && Roomy(s, s.planes.retiredSize)
    && (forall i :: 0 <= i < |s.senders| && s.senders[i].size.Some? ==> Roomy(s, s.senders[i].size.value))
    && (forall i :: 0 <= i < |s.queue| ==> Roomy(s, s.queue[i].size))
    && (s.collector.Received? ==> Roomy(s, s.collector.report.size))
  }

  lemma RetireKeepsRoom(s: State)
    requires Safe(s) && RoomEverywhere(s)
    ensures RoomEverywhere(RetireCurrent(s))
  {
  }

  lemma PushKeepsRoom(s: State, log: Log)
    requires Safe(s) && RoomEverywhere(s)
    requires s.planes.store[s.planes.cur] == 0 || Fits(s.planes.store[s.planes.cur] + |log.bytes|, s.cap)
    ensures RoomEverywhere(Push(s, log))
  {
    var t := Push(s, log);
    if LogsFitAlone(t) {
      assert t.accepted[|s.accepted|] == log;
      assert forall i :: 0 <= i < |s.accepted| ==> s.accepted[i] == t.accepted[i];
      assert LogsFitAlone(s);
    }
  }

  lemma FullWriteKeepsRoom(s: State, bytes: seq<Byte>, isCritical: bool)
    requires Safe(s) && RoomEverywhere(s) && !Fits(s.planes.store[s.planes.cur] + |bytes|, s.cap)
    ensures RoomEverywhere(WriteStep(s, bytes, isCritical))
  {
    WriteSplits(s, bytes, isCritical);
    RetireKeepsSafe(s);
    RetireKeepsRoom(s);
    var t, log := RetireCurrent(s), Log(bytes, isCritical, s.now);
    if |t.planes.data[t.planes.cur]| + |bytes| <= s.cap {
      PushKeepsRoom(t, log);
      AnnounceKeepsRoom(Push(t, log), NEW_SENDER);
    }
  }

  lemma WriteKeepsRoom(s: State, bytes: seq<Byte>, isCritical: bool)
    requires Safe(s) && RoomEverywhere(s)
    ensures RoomEverywhere(WriteStep(s, bytes, isCritical))
  {
    if Fits(s.planes.store[s.planes.cur] + |bytes|, s.cap) {
      WriteSplits(s, bytes, isCritical);
      PushKeepsRoom(s, Log(bytes, isCritical, s.now));
    } else {
      FullWriteKeepsRoom(s, bytes, isCritical);
    }
  }

  lemma AnnounceKeepsRoom(s: State, d: Sender)
    requires s.planes.WellFormed() && RoomEverywhere(s) && d.size.None?
    ensures RoomEverywhere(s.(senders := s.senders + [d]))
  {
    var t := s.(senders := s.senders + [d]);
    assert LogsFitAlone(t) <==> LogsFitAlone(s);
  }

  lemma ReportKeepsRoom(s: State, step: Step)
    requires Safe(s) && RoomEverywhere(s)
    requires step.ReadPlane? || step.ReadSize? || step.ReadCritical? || step.SendReport? || step.SendFails?
    ensures RoomEverywhere(Apply(s, step))
  {
    assert LogsFitAlone(Apply(s, step)) <==> LogsFitAlone(s);
  }

  lemma CollectKeepsRoom(s: State, step: Step)
    requires Safe(s) && RoomEverywhere(s)
    requires step.Receive? || step.RefuseEmpty? || step.Copy? || step.Clear? || step.Wait?
    ensures RoomEverywhere(Apply(s, step))
  {
    assert LogsFitAlone(Apply(s, step)) <==> LogsFitAlone(s);
  }

  lemma TickSplits(s: State)
    requires s.planes.WellFormed() && |s.logs| == 2 && TickSwaps(s.planes, s.timeout, s.now)
    ensures var t := RetireCurrent(s);
            TickedStep(s)
            == t.(senders := t.senders + [NEW_SENDER.(byCollector := true)]).(collector := Reporting)
  {
  }

  lemma ReportingKeepsRoom(s: State)
    requires s.planes.WellFormed() && RoomEverywhere(s)
    ensures RoomEverywhere(s.(collector := Reporting))
  {
    assert LogsFitAlone(s.(collector := Reporting)) <==> LogsFitAlone(s);
  }

  lemma TickKeepsRoom(s: State)
    requires Safe(s) && RoomEverywhere(s)
    ensures RoomEverywhere(TickedStep(s))
  {
    if TickSwaps(s.planes, s.timeout, s.now) {
      var t, d := RetireCurrent(s), NEW_SENDER.(byCollector := true);
      TickSplits(s);
      RetireKeepsRoom(s);
      AnnounceKeepsRoom(t, d);
      ReportingKeepsRoom(t.(senders := t.senders + [d]));
    }
  }

  lemma StepKeepsRoom(s: State, step: Step)
    requires Safe(s) && RoomEverywhere(s)
    ensures RoomEverywhere(Apply(s, step))
  {
    if step.WriteLog? {
      WriteKeepsRoom(s, step.bytes, step.isCritical);
    } else if step.TickStep? {
      TickKeepsRoom(s);
    } else if step.Receive? || step.RefuseEmpty? || step.Copy? || step.Clear? || step.Wait? {
      CollectKeepsRoom(s, step);
    } else {
      ReportKeepsRoom(s, step);
    }
  }

  lemma {:induction false} RunHasRoom(cap: nat, timeout: int, steps: seq<Step>)
    ensures Safe(Exec(Start(cap, timeout), steps)) && RoomEverywhere(Exec(Start(cap, timeout), steps))
    decreases |steps|
  {
    RunIsSafe(cap, timeout, steps);
    if steps != [] {
      RunHasRoom(cap, timeout, steps[..|steps| - 1]);
      StepKeepsRoom(Exec(Start(cap, timeout), steps[..|steps| - 1]), steps[|steps| - 1]);
    }
  }

  /** In every interleaving, overruns included: a plane never outgrows its
      buffer, the copy of a retired plane stays inside a buffer of the same size,
      and when every log fits on its own both leave room for the growth that
      encryption may add. */
  lemma BackupStaysInBounds(cap: nat, timeout: int, steps: seq<Step>)
    ensures var s := Exec(Start(cap, timeout), steps);
            && |s.planes.data[0]| <= cap && |s.planes.data[1]| <= cap
            && (s.collector.Received? ==> s.collector.report.size <= cap)
            && (LogsFitAlone(s) ==>
                 && PaddedSize(|s.planes.data[0]|) < cap && PaddedSize(|s.planes.data[1]|) < cap
                 && (s.collector.Received? ==> PaddedSize(s.collector.report.size) < cap))
  {
    RunHasRoom(cap, timeout, steps);
    ParametersAreFixed(cap, timeout, steps);
  }

  // ------------------------------------------------------------ losslessness

  /** The report of the one plane waiting to be collected. */
  ghost predicate Describes(r: Report, p: Planes)
    requires p.WellFormed()
  {
    r == Report(p.oldest, |p.data[p.oldest]|, p.critical[p.oldest])
  }

  /** Without an overrun at most one report is under way, and it describes the
      retired plane. */
  ghost predicate OneReport(s: State)
    requires s.planes.WellFormed()
  {
    var busy := if s.collector.Received? || s.collector.Copied? then 1 else 0;
    && |s.senders| + |s.queue| + busy <= (if s.planes.status == HalfUse then 1 else 0)
    && (s.planes.status == HalfUse ==> s.planes.retiredSize == |s.planes.data[s.planes.oldest]|)
    && (forall i :: 0 <= i < |s.senders| ==>
          && (s.senders[i].plane.Some? ==> s.senders[i].plane.value == s.planes.oldest)
          && (s.senders[i].size.Some? ==> s.senders[i].size.value == |s.planes.data[s.planes.oldest]|)
          && (s.senders[i].critical.Some? ==> s.senders[i].critical.value == s.planes.critical[s.planes.oldest]))
    && (forall i :: 0 <= i < |s.queue| ==> Describes(s.queue[i], s.planes))
    && (s.collector.Received? ==> Describes(s.collector.report, s.planes))
    && (s.collector.Copied? ==>
         s.collector.payload == Payload(s.planes.data[s.planes.oldest], s.planes.critical[s.planes.oldest]))
  }

  /** The logs waiting in the retired plane. */
  function PendingLogs(s: State): seq<Log>
    requires s.planes.WellFormed() && |s.logs| == 2
  {
    if s.planes.status == HalfUse then s.logs[s.planes.oldest] else []
  }

  ghost predicate Accounted(s: State)
    requires s.planes.WellFormed() && |s.logs| == 2
  {
    && Flatten(s.batches) + PendingLogs(s) + s.logs[s.planes.cur] == s.accepted
    && |s.collected| == |s.batches|
    && forall i :: 0 <= i < |s.collected| ==>
         s.collected[i].bytes == Bytes(s.batches[i]) && s.collected[i].critical == HasCritical(s.batches[i])
  }

  ghost predicate KeepsUp(s: State) {
    Safe(s) && (!s.overrun ==> OneReport(s) && Accounted(s))
  }

  lemma FlattenAppend(batches: seq<seq<Log>>, batch: seq<Log>)
    ensures Flatten(batches + [batch]) == Flatten(batches) + batch
  {
    assert (batches + [batch])[..|batches|] == batches;
  }

  lemma PushKeepsUp(s: State, log: Log)
    requires Safe(s) && OneReport(s) && Accounted(s)
    requires s.planes.status == HalfUse ==> s.planes.oldest != s.planes.cur
    ensures OneReport(Push(s, log)) && Accounted(Push(s, log))
  {
    var t := Push(s, log);
    assert Flatten(s.batches) + PendingLogs(s) + (s.logs[s.planes.cur] + [log])
        == Flatten(s.batches) + PendingLogs(s) + s.logs[s.planes.cur] + [log];
    assert PendingLogs(t) == PendingLogs(s);
  }

  lemma RetireOpensReport(s: State)
    requires Safe(s) && OneReport(s) && s.planes.status == Use
    ensures var t := RetireCurrent(s);
            OneReport(t) && t.planes.status == HalfUse && t.senders == [] && t.queue == []
                         && !t.collector.Received? && !t.collector.Copied?
  {
  }

  lemma RetireKeepsAccount(s: State)
    requires Safe(s) && Accounted(s) && s.planes.status == Use
    ensures Accounted(RetireCurrent(s))
  {
    var t := RetireCurrent(s);
    assert PendingLogs(t) == s.logs[s.planes.cur] && t.logs[t.planes.cur] == [];
  }

  lemma RetireKeepsUp(s: State)
    requires Safe(s) && OneReport(s) && Accounted(s) && s.planes.status == Use
    ensures var t := RetireCurrent(s);
            OneReport(t) && Accounted(t) && t.planes.status == HalfUse && t.senders == [] && t.queue == []
                                     && !t.collector.Received? && !t.collector.Copied?
  {
    RetireOpensReport(s);
    RetireKeepsAccount(s);
  }

  lemma FittingWriteKeepsUp(s: State, bytes: seq<Byte>, isCritical: bool)
    requires Safe(s) && OneReport(s) && Accounted(s)
    requires Fits(s.planes.store[s.planes.cur] + |bytes|, s.cap)
    ensures OneReport(WriteStep(s, bytes, isCritical)) && Accounted(WriteStep(s, bytes, isCritical))
  {
    WriteSplits(s, bytes, isCritical);
    PushKeepsUp(s, Log(bytes, isCritical, s.now));
  }

  lemma FullWriteKeepsUp(s: State, bytes: seq<Byte>, isCritical: bool)
    requires Safe(s) && OneReport(s) && Accounted(s) && s.planes.status == Use
    requires !Fits(s.planes.store[s.planes.cur] + |bytes|, s.cap)
    ensures OneReport(WriteStep(s, bytes, isCritical)) && Accounted(WriteStep(s, bytes, isCritical))
  {
    WriteSplits(s, bytes, isCritical);
    var log, t := Log(bytes, isCritical, s.now), RetireCurrent(s);
    RetireKeepsSafe(s);
    RetireKeepsUp(s);
    if |t.planes.data[t.planes.cur]| + |bytes| <= s.cap {
      PushKeepsUp(t, log);
      AnnounceKeepsUp(Push(t, log));
      assert s.senders + [NEW_SENDER] == [NEW_SENDER];
    }
  }

  lemma WhenWriteOverruns(s: State, bytes: seq<Byte>, isCritical: bool)
    requires Safe(s)
    ensures WriteStep(s, bytes, isCritical).overrun <==>
            s.overrun || (s.planes.status == HalfUse && !Fits(s.planes.store[s.planes.cur] + |bytes|, s.cap))
  {
  }

  lemma WriteKeepsUp(s: State, bytes: seq<Byte>, isCritical: bool)
    requires KeepsUp(s)
    ensures KeepsUp(WriteStep(s, bytes, isCritical))
  {
    StepKeepsSafe(s, WriteLog(bytes, isCritical));
    WhenWriteOverruns(s, bytes, isCritical);
    if !s.overrun {
      if Fits(s.planes.store[s.planes.cur] + |bytes|, s.cap) {
        FittingWriteKeepsUp(s, bytes, isCritical);
      } else if s.planes.status == Use {
        FullWriteKeepsUp(s, bytes, isCritical);
      }
    }
  }

  lemma AnnounceKeepsUp(s: State)
    requires s.planes.WellFormed() && |s.logs| == 2 && OneReport(s) && Accounted(s)
    requires s.planes.status == HalfUse && s.senders == [] && s.queue == []
    requires !s.collector.Received? && !s.collector.Copied?
    ensures OneReport(s.(senders := [NEW_SENDER])) && Accounted(s.(senders := [NEW_SENDER]))
  {
  }

  lemma TickKeepsUp(s: State)
    requires KeepsUp(s) && s.collector == Idle
    ensures KeepsUp(TickedStep(s))
  {
    TickKeepsSafe(s);
    if TickSwaps(s.planes, s.timeout, s.now) && !s.overrun && s.planes.status == Use {
      RetireKeepsUp(s);
    }
  }

  lemma ReadKeepsUp(s: State, step: Step)
    requires KeepsUp(s) && !s.overrun && Enabled(s, step)
    requires step.ReadPlane? || step.ReadSize? || step.ReadCritical?
    ensures OneReport(Apply(s, step)) && Accounted(Apply(s, step))
  {
    assert PendingLogs(Apply(s, step)) == PendingLogs(s);
  }

  lemma LeaveKeepsUp(s: State, i: nat)
    requires KeepsUp(s) && !s.overrun && i < |s.senders|
    ensures OneReport(Leave(s, i)) && Accounted(Leave(s, i))
  {
    assert PendingLogs(Leave(s, i)) == PendingLogs(s);
  }

  lemma SendKeepsUp(s: State, i: nat)
    requires KeepsUp(s) && !s.overrun && i < |s.senders|
    ensures OneReport(Leave(s, i)) && Accounted(Leave(s, i))
    ensures Enabled(s, SendReport(i)) ==> OneReport(SentStep(s, i)) && Accounted(SentStep(s, i))
  {
    LeaveKeepsUp(s, i);
    if Enabled(s, SendReport(i)) {
      assert PendingLogs(SentStep(s, i)) == PendingLogs(s);
    }
  }

  lemma ReportKeepsUp(s: State, step: Step)
    requires KeepsUp(s)
    requires step.ReadPlane? || step.ReadSize? || step.ReadCritical? || step.SendReport? || step.SendFails?
    ensures KeepsUp(Apply(s, step))
  {
    ReportKeepsSafe(s, step);
    if !s.overrun && Enabled(s, step) {
      if step.SendReport? || step.SendFails? {
        SendKeepsUp(s, step.i);
      } else {
        ReadKeepsUp(s, step);
      }
    }
  }

  lemma ClearEndsReport(s: State)
    requires KeepsUp(s) && s.collector.Copied? && !s.overrun
    ensures OneReport(ClearedStep(s))
  {
  }

  lemma ClearMovesLogs(s: State)
    requires Safe(s) && OneReport(s) && s.collector.Copied?
    ensures var t := ClearedStep(s);
            && PendingLogs(s) == s.logs[s.planes.oldest] && PendingLogs(t) == []
            && t.logs[t.planes.cur] == s.logs[s.planes.cur] && t.accepted == s.accepted
            && t.batches == s.batches + [PendingLogs(s)] && t.collected == s.collected + [s.collector.payload]
            && s.collector.payload.bytes == Bytes(PendingLogs(s))
            && s.collector.payload.critical == HasCritical(PendingLogs(s))
  {
  }

  lemma EmptyPending(batches: seq<Log>, current: seq<Log>)
    ensures batches + [] + current == batches + current
  {
    assert batches + [] == batches;
  }

  lemma ClearKeepsAccount(s: State)
    requires KeepsUp(s) && s.collector.Copied? && !s.overrun
    ensures Accounted(ClearedStep(s))
  {
    ClearMovesLogs(s);
    FlattenAppend(s.batches, PendingLogs(s));
    EmptyPending(Flatten(s.batches) + PendingLogs(s), s.logs[s.planes.cur]);
  }

  lemma CollectKeepsUp(s: State, step: Step)
    requires KeepsUp(s)
    requires step.Receive? || step.RefuseEmpty? || step.Copy? || step.Clear? || step.Wait?
    ensures KeepsUp(Apply(s, step))
  {
    if Enabled(s, step) {
      CollectKeepsSafe(s, step);
    }
    if !s.overrun && Enabled(s, step) {
      if step.Clear? {
        ClearEndsReport(s);
        ClearKeepsAccount(s);
      } else {
        if step.Copy? {
          assert step.bytes == s.planes.data[s.planes.oldest];
        }
        assert PendingLogs(Apply(s, step)) == PendingLogs(s);
      }
    }
  }

  lemma {:induction false} RunKeepsUp(cap: nat, timeout: int, steps: seq<Step>)
    ensures KeepsUp(Exec(Start(cap, timeout), steps))
    decreases |steps|
  {
    if steps != [] {
      var s := Exec(Start(cap, timeout), steps[..|steps| - 1]);
      RunKeepsUp(cap, timeout, steps[..|steps| - 1]);
      match steps[|steps| - 1] {
        case WriteLog(bytes, isCritical) => WriteKeepsUp(s, bytes, isCritical);
        case TickStep => if s.collector == Idle { TickKeepsUp(s); }
        case ReadPlane(i) => ReportKeepsUp(s, ReadPlane(i));
        case ReadSize(i) => ReportKeepsUp(s, ReadSize(i));
        case ReadCritical(i) => ReportKeepsUp(s, ReadCritical(i));
        case SendReport(i) => ReportKeepsUp(s, SendReport(i));
        case SendFails(i) => ReportKeepsUp(s, SendFails(i));
        case Receive => CollectKeepsUp(s, Receive);
        case RefuseEmpty => CollectKeepsUp(s, RefuseEmpty);
        case Copy(bytes) => CollectKeepsUp(s, Copy(bytes));
        case Clear => CollectKeepsUp(s, Clear);
        case Wait(n) => CollectKeepsUp(s, Wait(n));
      }
    } else {
      SafeAtStart(cap, timeout);
    }
  }

  lemma {:induction false} BytesConcat(a: seq<Log>, b: seq<Log>)
    ensures Bytes(a + b) == Bytes(a) + Bytes(b)
    decreases |b|
  {
    if b == [] {
      assert a + b == a;
    } else {
      var init, last := b[..|b| - 1], b[|b| - 1];
      assert b == init + [last] && a + b == (a + init) + [last];
      calc {
        Bytes(a + b);
      ==  { BytesAppend(a + init, last); }
        Bytes(a + init) + last.bytes;
      ==  { BytesConcat(a, init); }
        Bytes(a) + Bytes(init) + last.bytes;
      ==
        Bytes(a) + (Bytes(init) + last.bytes);
      ==  { BytesAppend(init, last); }
        Bytes(a) + Bytes(b);
      }
    }
  }

  lemma {:induction false} CollectedBytes(collected: seq<Payload>, batches: seq<seq<Log>>)
    requires |collected| == |batches|
    requires forall i :: 0 <= i < |collected| ==> collected[i].bytes == Bytes(batches[i])
    ensures AllBytes(collected) == Bytes(Flatten(batches))
    decreases |collected|
  {
    if collected != [] {
      var n := |collected| - 1;
      CollectedBytes(collected[..n], batches[..n]);
      BytesConcat(Flatten(batches[..n]), batches[n]);
    }
  }

  ghost predicate Lossless(s: State)
    requires s.planes.WellFormed()
  {
    var pending := if s.planes.status == HalfUse then s.planes.data[s.planes.oldest] else [];
    AllBytes(s.collected) + pending + s.planes.data[s.planes.cur] == Bytes(s.accepted)
  }

  lemma {:induction false} KeepingUpIsLossless(s: State)
    requires KeepsUp(s) && !s.overrun
    ensures Lossless(s)
  {
    CollectedBytes(s.collected, s.batches);
    BytesConcat(Flatten(s.batches), PendingLogs(s));
    BytesConcat(Flatten(s.batches) + PendingLogs(s), s.logs[s.planes.cur]);
  }

  /** Losslessness.  In every interleaving that never retires a plane while the
      other is pending, the collected payloads, the pending plane and the current
      plane are, in this order, exactly the accepted logs; a report that is late
      or never sent does not change that. */
  lemma {:induction false} NothingIsLost(cap: nat, timeout: int, steps: seq<Step>)
    requires !Exec(Start(cap, timeout), steps).overrun
    ensures Lossless(Exec(Start(cap, timeout), steps))
  {
    RunKeepsUp(cap, timeout, steps);
    KeepingUpIsLossless(Exec(Start(cap, timeout), steps));
  }

  lemma AppendSame(a: seq<Byte>, b: seq<Byte>, c: seq<Byte>)
    ensures a + c == b + c <==> a == b
  {
    if a + c == b + c {
      assert a == (a + c)[..|a|] && b == (b + c)[..|b|];
    }
  }

  lemma Associate(a: seq<Byte>, b: seq<Byte>, c: seq<Byte>)
    ensures a + (b + c) == a + b + c
  {
  }

  lemma PushMovesBytes(s: State, log: Log)
    requires s.planes.WellFormed() && |s.logs| == 2
    requires s.planes.status == HalfUse && s.planes.oldest != s.planes.cur
    ensures var t := Push(s, log);
            && t.collected == s.collected && t.accepted == s.accepted + [log]
            && t.planes.status == HalfUse && t.planes.cur == s.planes.cur
            && t.planes.data[t.planes.oldest] == s.planes.data[s.planes.oldest]
            && t.planes.data[t.planes.cur] == s.planes.data[s.planes.cur] + log.bytes
  {
  }

  /** A push into the current plane adds to both sides of the balance. */
  lemma PushKeepsBalance(s: State, log: Log)
    requires s.planes.WellFormed() && |s.logs| == 2
    requires s.planes.status == HalfUse && s.planes.oldest != s.planes.cur
    ensures Lossless(Push(s, log)) <==> Lossless(s)
  {
    PushMovesBytes(s, log);
    BytesAppend(s.accepted, log);
    var before := AllBytes(s.collected) + s.planes.data[s.planes.oldest];
    Associate(before, s.planes.data[s.planes.cur], log.bytes);
    AppendSame(before + s.planes.data[s.planes.cur], Bytes(s.accepted), log.bytes);
  }

  lemma WithoutMiddle(a: seq<Byte>, b: seq<Byte>, c: seq<Byte>)
    ensures a + c + [] == a + b + c <==> b == []
  {
    if b == [] {
      assert a + c + [] == a + b + c;
    } else {
      assert |a + c + []| < |a + b + c|;
    }
  }

  lemma OverrunMovesPlanes(s: State)
    requires Safe(s) && s.planes.status == HalfUse
    ensures var t := RetireCurrent(s);
            && t.collected == s.collected && t.accepted == s.accepted && t.planes.status == HalfUse
            && t.planes.data[t.planes.oldest] == s.planes.data[s.planes.cur] && t.planes.data[t.planes.cur] == []
  {
  }

  /** Retiring a plane while the other is pending loses what the other holds. */
  lemma RetireLosesPending(s: State)
    requires Safe(s) && Lossless(s) && s.planes.status == HalfUse
    ensures Lossless(RetireCurrent(s)) <==> s.planes.data[s.planes.oldest] == []
  {
    OverrunMovesPlanes(s);
    WithoutMiddle(AllBytes(s.collected), s.planes.data[s.planes.oldest], s.planes.data[s.planes.cur]);
  }

  lemma WriteLosesPending(s: State, bytes: seq<Byte>, isCritical: bool)
    requires KeepsUp(s) && !s.overrun && WriteStep(s, bytes, isCritical).overrun
    ensures Lossless(WriteStep(s, bytes, isCritical)) <==> s.planes.data[s.planes.oldest] == []
  {
    WhenWriteOverruns(s, bytes, isCritical);
    WriteSplits(s, bytes, isCritical);
    KeepingUpIsLossless(s);
    RetireLosesPending(s);
    RetireKeepsSafe(s);
    var t := RetireCurrent(s);
    if |t.planes.data[t.planes.cur]| + |bytes| <= s.cap {
      PushKeepsBalance(t, Log(bytes, isCritical, s.now));
    }
  }

  lemma TickLosesPending(s: State)
    requires KeepsUp(s) && !s.overrun && TickedStep(s).overrun
    ensures Lossless(TickedStep(s)) <==> s.planes.data[s.planes.oldest] == []
  {
    KeepingUpIsLossless(s);
    RetireLosesPending(s);
  }

  /** The guard of the overrun: the step retires the current plane while the other
      is still pending. */
  predicate SwapsWhilePending(s: State, step: Step)
    requires s.planes.WellFormed()
  {
    && s.planes.status == HalfUse
    && match step
       case WriteLog(bytes, _) => !Fits(s.planes.store[s.planes.cur] + |bytes|, s.cap)
       case TickStep => s.collector == Idle && TickSwaps(s.planes, s.timeout, s.now)
       case _ => false
  }

  lemma WhenStepOverruns(s: State, step: Step)
    requires s.planes.WellFormed() && |s.logs| == 2
    ensures Apply(s, step).overrun <==> s.overrun || SwapsWhilePending(s, step)
  {
  }

  /** Exactly when data get lost: a step of a run that has not lost anything yet loses
      something if and only if it retires the current plane while the other is still
      pending and holds something. */
  lemma {:induction false} FirstOverrunLosesPendingPlane(cap: nat, timeout: int, steps: seq<Step>, step: Step)
    requires !Exec(Start(cap, timeout), steps).overrun
    ensures var s := Exec(Start(cap, timeout), steps);
            Lossless(Exec(Start(cap, timeout), steps + [step]))
            <==> !SwapsWhilePending(s, step) || s.planes.data[s.planes.oldest] == []
  {
    var s := Exec(Start(cap, timeout), steps);
    RunKeepsUp(cap, timeout, steps);
    WhenStepOverruns(s, step);
    ExecSnoc(Start(cap, timeout), steps, step);
    if SwapsWhilePending(s, step) {
      if step.WriteLog? {
        WriteLosesPending(s, step.bytes, step.isCritical);
      } else {
        TickLosesPending(s);
      }
    } else {
      NothingIsLost(cap, timeout, steps + [step]);
    }
  }

  /** Each payload is made of consecutive accepted logs and is flagged critical
      exactly when one of them is. */
  ghost predicate PayloadsMatch(s: State) {
    && Flatten(s.batches) <= s.accepted
    && |s.collected| == |s.batches|
    && forall i :: 0 <= i < |s.collected| ==>
         && s.collected[i].bytes == Bytes(s.batches[i])
         && (s.collected[i].critical <==> HasCritical(s.batches[i]))
  }

  lemma {:induction false} PayloadsAreBatches(cap: nat, timeout: int, steps: seq<Step>)
    requires !Exec(Start(cap, timeout), steps).overrun
    ensures PayloadsMatch(Exec(Start(cap, timeout), steps))
  {
    RunKeepsUp(cap, timeout, steps);
    AccountedPrefix(Exec(Start(cap, timeout), steps));
  }

  lemma AccountedPrefix(s: State)
    requires s.planes.WellFormed() && |s.logs| == 2 && Accounted(s)
    ensures PayloadsMatch(s)
  {
    assert Flatten(s.batches) + (PendingLogs(s) + s.logs[s.planes.cur]) == s.accepted;
  }

  lemma ExecSnoc(s: State, steps: seq<Step>, step: Step)
    requires s.planes.WellFormed() && |s.logs| == 2
    ensures Exec(s, steps + [step]) == Apply(Exec(s, steps), step)
  {
    assert (steps + [step])[..|steps|] == steps;
  }

  /** `n` logs of ten bytes written into planes of 48 bytes and none reported. */
  ghost predicate TenByteLogs(s: State, n: nat) {
    && s.planes.WellFormed() && |s.logs| == 2
    && s.cap == 48 && s.collected == [] && !s.overrun && |Bytes(s.accepted)| == 10 * n
    && s.planes.cur == (if n == 2 then 1 else 0)
    && (n == 1 ==> s.planes.status == Use && s.planes.data[1] == [])
    && (n == 2 ==> s.planes.status == HalfUse && |s.planes.data[1]| == 10)
    && s.planes.store[s.planes.cur] == |s.planes.data[s.planes.cur]| == 10
    && s.planes.store[1 - s.planes.cur] == |s.planes.data[1 - s.planes.cur]|
  }

  lemma FirstWrite(log: seq<Byte>)
    requires |log| == 10
    ensures TenByteLogs(Apply(Start(48, 60), WriteLog(log, false)), 1)
  {
    BytesAppend([], Log(log, false, 0));
  }

  lemma SecondWrite(s: State, log: seq<Byte>)
    requires |log| == 10 && TenByteLogs(s, 1)
    ensures TenByteLogs(Apply(s, WriteLog(log, false)), 2)
  {
    BytesAppend(s.accepted, Log(log, false, s.now));
  }

  lemma ThirdWrite(s: State, log: seq<Byte>)
    requires |log| == 10 && TenByteLogs(s, 2)
    ensures var t := Apply(s, WriteLog(log, false)); t.overrun && !Lossless(t)
  {
    BytesAppend(s.accepted, Log(log, false, s.now));
    var t := Apply(s, WriteLog(log, false));
    assert |t.planes.data[0]| == 10 && |t.planes.data[1]| == 10 && |Bytes(t.accepted)| == 30;
  }

  lemma TwoWrites(log: seq<Byte>)
    requires |log| == 10
    ensures var w := WriteLog(log, false); TenByteLogs(Exec(Start(48, 60), [w, w]), 2)
  {
    var w := WriteLog(log, false);
    ExecSnoc(Start(48, 60), [], w);
    assert [] + [w] == [w];
    FirstWrite(log);
    ExecSnoc(Start(48, 60), [w], w);
    assert [w] + [w] == [w, w];
    SecondWrite(Exec(Start(48, 60), [w]), log);
  }

  /** The restriction to runs without an overrun is needed: three logs that each
      fill a plane, with no report sent in time, lose the first one. */
  lemma OverrunLosesLogs(log: seq<Byte>)
    requires |log| == 10
    ensures var w := WriteLog(log, false);
            var s := Exec(Start(48, 60), [w, w] + [w]);
            s.overrun && !Lossless(s)
  {
    var w := WriteLog(log, false);
    TwoWrites(log);
    ExecSnoc(Start(48, 60), [w, w], w);
    ThirdWrite(Exec(Start(48, 60), [w, w]), log);
  }
}

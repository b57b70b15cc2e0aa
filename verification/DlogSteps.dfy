/**
 What a write and a tick do to the planes in every run, read from the logs the planes
 hold.
 */
module DlogSteps {
  import opened Common
  import opened DlogBuffer
  import opened DlogPipeline

  /** While a plane is pending, the recorded size is its length. */
  ghost predicate SizeIsRecorded(s: State)
    requires s.planes.WellFormed()
  {
    s.planes.status == HalfUse ==> s.planes.retiredSize == |s.planes.data[s.planes.oldest]|
  }

  lemma PushKeepsSize(s: State, log: Log)
    requires Safe(s) && SizeIsRecorded(s)
    ensures SizeIsRecorded(Push(s, log))
  {
  }

  lemma RetireRecordsSize(s: State)
    requires Safe(s)
    ensures SizeIsRecorded(RetireCurrent(s))
  {
  }

  lemma WriteKeepsSize(s: State, bytes: seq<Byte>, isCritical: bool)
    requires Safe(s) && SizeIsRecorded(s)
    ensures SizeIsRecorded(WriteStep(s, bytes, isCritical))
  {
    WriteSplits(s, bytes, isCritical);
    RetireKeepsSafe(s);
    RetireRecordsSize(s);
    var log := Log(bytes, isCritical, s.now);
    PushKeepsSize(s, log);
    PushKeepsSize(RetireCurrent(s), log);
  }

  lemma TickRecordsSize(s: State)
    requires Safe(s) && SizeIsRecorded(s)
    ensures SizeIsRecorded(TickedStep(s))
  {
    RetireRecordsSize(s);
  }

  lemma StepKeepsSize(s: State, step: Step)
    requires Safe(s) && SizeIsRecorded(s)
    ensures SizeIsRecorded(Apply(s, step))
  {
    if step.WriteLog? {
      WriteKeepsSize(s, step.bytes, step.isCritical);
    } else if step.TickStep? {
      TickRecordsSize(s);
    }
  }

  /** In every interleaving, overruns included, the recorded size is the length of the
      plane that is pending. */
  lemma {:induction false} PendingPlaneHasItsSize(cap: nat, timeout: int, steps: seq<Step>)
    ensures SizeIsRecorded(Exec(Start(cap, timeout), steps))
    decreases |steps|
  {
    if steps != [] {
      RunIsSafe(cap, timeout, steps[..|steps| - 1]);
      PendingPlaneHasItsSize(cap, timeout, steps[..|steps| - 1]);
      StepKeepsSize(Exec(Start(cap, timeout), steps[..|steps| - 1]), steps[|steps| - 1]);
    }
  }

  /** From `s` to `t` the current plane is retired as it is, and writing goes on in the
      other plane with the logs `held`. */
  ghost predicate Swapped(s: State, t: State, held: seq<Log>)
    requires s.planes.WellFormed() && t.planes.WellFormed() && |s.logs| == |t.logs| == 2
  {
    var c := s.planes.cur;
    && t.planes.cur == 1 - c && t.planes.oldest == c && t.planes.status == HalfUse
    && t.planes.retiredSize == |Bytes(s.logs[c])|
    && t.planes.data[c] == Bytes(s.logs[c]) && t.planes.data[1 - c] == Bytes(held)
    && t.planes.critical[c] == HasCritical(s.logs[c]) && t.planes.critical[1 - c] == HasCritical(held)
    && t.logs[c] == s.logs[c] && t.logs[1 - c] == held
  }

  /** From `s` to `t` the current plane goes on with the logs `held`. */
  ghost predicate Continued(s: State, t: State, held: seq<Log>)
    requires s.planes.WellFormed() && t.planes.WellFormed() && |s.logs| == |t.logs| == 2
  {
    var c := s.planes.cur;
    && t.planes.cur == c && t.planes.oldest == s.planes.oldest && t.planes.status == s.planes.status
    && t.planes.retiredSize == s.planes.retiredSize
    && t.planes.data[c] == Bytes(held) && t.planes.data[1 - c] == s.planes.data[1 - c]
    && t.planes.critical[c] == HasCritical(held) && t.planes.critical[1 - c] == s.planes.critical[1 - c]
    && t.logs[c] == held && t.logs[1 - c] == s.logs[1 - c]
  }

  lemma RetireSwaps(s: State)
    requires Safe(s)
    ensures Swapped(s, RetireCurrent(s), [])
    ensures RetireCurrent(s).accepted == s.accepted && RetireCurrent(s).senders == s.senders
  {
    RetireKeepsSafe(s);
  }

  lemma PushContinues(s: State, log: Log)
    requires Safe(s)
    ensures Continued(s, Push(s, log), s.logs[s.planes.cur] + [log])
    ensures Push(s, log).accepted == s.accepted + [log] && Push(s, log).senders == s.senders
  {
    PushFillsCurrentPlane(s, log);
    PushSparesOtherPlane(s, log);
  }

  lemma SwapAndPush(s: State, log: Log)
    requires Safe(s)
    ensures var t := Push(RetireCurrent(s), log);
            Swapped(s, t, [log]) && t.accepted == s.accepted + [log] && t.senders == s.senders
  {
    RetireSwaps(s);
    RetireKeepsSafe(s);
    PushContinues(RetireCurrent(s), log);
    assert [] + [log] == [log];
  }

  /** The capacity test for a length of `k` whole blocks and perhaps a part of another. */
  lemma WhenItFits(n: nat, cap: nat, k: nat)
    requires 16 * k <= n < 16 * k + 16
    ensures Fits(n, cap) <==> 16 * k + 32 < cap
  {
  }

  /** What a write does that finds room in the current plane or not.  Without room the
      planes are swapped, the log is refused if even an empty plane cannot hold it, and the
      writer of a log that is not refused reports the retired plane. */
  ghost predicate Writes(s: State, t: State, room: bool, log: Log)
    requires s.planes.WellFormed() && t.planes.WellFormed() && |s.logs| == |t.logs| == 2
  {
    if room
    then
      Continued(s, t, s.logs[s.planes.cur] + [log]) && t.accepted == s.accepted + [log] && t.senders == s.senders
    else if |log.bytes| <= s.cap
    then
      Swapped(s, t, [log]) && t.accepted == s.accepted + [log]
      && t.senders == s.senders + [Sender(false, None, None, None)]
    else Swapped(s, t, []) && t.accepted == s.accepted && t.senders == s.senders
  }

  lemma WriteOutcome(s: State, bytes: seq<Byte>, isCritical: bool)
    requires Safe(s)
    ensures Writes(s, WriteStep(s, bytes, isCritical), Fits(s.planes.store[s.planes.cur] + |bytes|, s.cap),
                   Log(bytes, isCritical, s.now))
  {
    WriteSplits(s, bytes, isCritical);
    RetireSwaps(s);
    PushContinues(s, Log(bytes, isCritical, s.now));
    SwapAndPush(s, Log(bytes, isCritical, s.now));
  }

  lemma WriteInBlocks(s: State, bytes: seq<Byte>, isCritical: bool, k: nat)
    requires Safe(s) && 16 * k <= |Bytes(s.logs[s.planes.cur])| + |bytes| < 16 * k + 16
    ensures Writes(s, WriteStep(s, bytes, isCritical), 16 * k + 32 < s.cap, Log(bytes, isCritical, s.now))
  {
    WhenItFits(s.planes.store[s.planes.cur] + |bytes|, s.cap, k);
    WriteOutcome(s, bytes, isCritical);
  }

  /** In every run a write that makes the current plane `k` whole blocks long, and perhaps a
      part of another, finds room if and only if `k + 2` blocks are less than the capacity. */
  lemma {:induction false} WhatWriteDoes(cap: nat, timeout: int, steps: seq<Step>,
                                         bytes: seq<Byte>, isCritical: bool, k: nat)
    requires var s := Exec(Start(cap, timeout), steps);
             16 * k <= |Bytes(s.logs[s.planes.cur])| + |bytes| < 16 * (k + 1)
    ensures var s, t := Exec(Start(cap, timeout), steps),
                        Exec(Start(cap, timeout), steps + [WriteLog(bytes, isCritical)]);
            Writes(s, t, 16 * (k + 2) < cap, Log(bytes, isCritical, s.now)) && s.cap == cap
  {
    RunIsSafe(cap, timeout, steps);
    ParametersAreFixed(cap, timeout, steps);
    ExecSnoc(Start(cap, timeout), steps, WriteLog(bytes, isCritical));
    WriteInBlocks(Exec(Start(cap, timeout), steps), bytes, isCritical, k);
  }

  /** Some critical log of the current plane has waited as long as the timeout. */
  ghost predicate SomeLogIsOverdue(s: State)
    requires s.planes.WellFormed() && |s.logs| == 2
  {
    exists k :: 0 <= k < |s.logs[s.planes.cur]|
                && s.logs[s.planes.cur][k].critical && s.now - s.logs[s.planes.cur][k].at >= s.timeout
  }

  /** In every run a tick of the idle DLOG thread swaps the planes, and makes the thread
      report the retired one, if and only if a critical log of the current plane is
      overdue; otherwise it changes nothing. */
  lemma {:induction false} WhenTickSwaps(cap: nat, timeout: int, steps: seq<Step>)
    requires Exec(Start(cap, timeout), steps).collector == Idle
    ensures var s, t := Exec(Start(cap, timeout), steps), Exec(Start(cap, timeout), steps + [TickStep]);
            if SomeLogIsOverdue(s)
            then
              Swapped(s, t, []) && t.accepted == s.accepted && t.collector == Reporting
              && t.senders == s.senders + [Sender(true, None, None, None)]
            else t == s
  {
    var s := Exec(Start(cap, timeout), steps);
    RunIsSafe(cap, timeout, steps);
    ExecSnoc(Start(cap, timeout), steps, TickStep);
    WhenOverdue(s);
    RetireSwaps(s);
  }

  lemma WhenOverdue(s: State)
    requires Safe(s)
    ensures TickSwaps(s.planes, s.timeout, s.now) <==> SomeLogIsOverdue(s)
  {
    if TickSwaps(s.planes, s.timeout, s.now) {
      var logs := s.logs[s.planes.cur];
      var f :| 0 <= f < |logs| && logs[f].critical && logs[f].at == s.planes.since
               && forall j :: 0 <= j < f ==> !logs[j].critical;
    } else {
      QuietTickMeetsDeadline(s);
    }
  }

  // --------------------------------------------------- from the swap to the payload

  lemma ReportIsRead(s: State, d: Sender)
    requires s.planes.WellFormed() && |s.logs| == 2 && s.senders == [d]
    ensures Apply(Apply(Apply(s, ReadPlane(0)), ReadSize(0)), ReadCritical(0))
         == s.(senders := [Sender(d.byCollector, Some(s.planes.oldest), Some(s.planes.retiredSize),
                                  Some(s.planes.critical[s.planes.oldest]))])
  {
  }

  lemma ReportArrives(s: State, byCollector: bool, r: Report)
    requires s.planes.WellFormed() && |s.logs| == 2 && s.queue == []
    requires s.senders == [Sender(byCollector, Some(r.plane), Some(r.size), Some(r.critical))]
    requires s.collector == Idle || byCollector
    ensures Apply(Apply(s, SendReport(0)), Receive) == s.(senders := [], collector := Received(r))
  {
    assert [r][1..] == [];
  }

  /** The plane that `s` has retired becomes a payload in `t`. */
  ghost predicate Collects(s: State, t: State)
    requires s.planes.WellFormed() && t.planes.WellFormed() && |s.logs| == |t.logs| == 2
  {
    var logs := s.logs[s.planes.oldest];
    && t.senders == [] && t.queue == [] && t.collector == Idle && t.planes.status == Use
    && t.collected == s.collected + [Payload(Bytes(logs), HasCritical(logs))]
    && t.batches == s.batches + [logs] && t.logs[s.planes.oldest] == []
    && SameCurrentPlane(s, t) && t.accepted == s.accepted
  }

  lemma PlaneIsCopied(s: State)
    requires Safe(s) && s.planes.data[s.planes.oldest] != []
    requires s.collector == Received(Report(s.planes.oldest, |s.planes.data[s.planes.oldest]|,
                                            s.planes.critical[s.planes.oldest]))
    ensures var data := s.planes.data[s.planes.oldest];
            Apply(s, Copy(data)) == s.(collector := Copied(Payload(data, s.planes.critical[s.planes.oldest])))
  {
  }

  lemma CopyIsCollected(s: State)
    requires Safe(s) && s.senders == [] && s.queue == []
    requires s.collector == Copied(Payload(s.planes.data[s.planes.oldest], s.planes.critical[s.planes.oldest]))
    ensures Collects(s, Apply(s, Clear))
  {
    ClearSpares(s);
  }

  lemma ExecThree(cap: nat, timeout: int, steps: seq<Step>, a: Step, b: Step, c: Step)
    ensures Exec(Start(cap, timeout), steps + [a] + [b] + [c])
         == Apply(Apply(Apply(Exec(Start(cap, timeout), steps), a), b), c)
  {
    ExecSnoc(Start(cap, timeout), steps, a);
    ExecSnoc(Start(cap, timeout), steps + [a], b);
    ExecSnoc(Start(cap, timeout), steps + [a] + [b], c);
  }

  lemma ExecTwo(cap: nat, timeout: int, steps: seq<Step>, a: Step, b: Step)
    ensures Exec(Start(cap, timeout), steps + [a] + [b])
         == Apply(Apply(Exec(Start(cap, timeout), steps), a), b)
  {
    ExecSnoc(Start(cap, timeout), steps, a);
    ExecSnoc(Start(cap, timeout), steps + [a], b);
  }

  /** A thread that has retired a plane has yet to report it, and the DLOG thread can
      receive the report. */
  ghost predicate CanReport(s: State)
    requires s.planes.WellFormed()
  {
    && !s.overrun && |s.senders| == 1 && (s.collector == Idle || s.senders[0].byCollector)
    && s.planes.data[s.planes.oldest] != []
  }

  lemma ReportIsReceived(cap: nat, timeout: int, steps: seq<Step>)
    requires CanReport(Exec(Start(cap, timeout), steps))
    ensures var s := Exec(Start(cap, timeout), steps);
            var r := Report(s.planes.oldest, |s.planes.data[s.planes.oldest]|, s.planes.critical[s.planes.oldest]);
            Exec(Start(cap, timeout), steps + [ReadPlane(0)] + [ReadSize(0)] + [ReadCritical(0)]
                                            + [SendReport(0)] + [Receive])
            == s.(senders := [], collector := Received(r))
  {
    var s := Exec(Start(cap, timeout), steps);
    var read := steps + [ReadPlane(0)] + [ReadSize(0)] + [ReadCritical(0)];
    var r := Report(s.planes.oldest, |s.planes.data[s.planes.oldest]|, s.planes.critical[s.planes.oldest]);
    RunKeepsUp(cap, timeout, steps);
    ReportIsRead(s, s.senders[0]);
    ExecThree(cap, timeout, steps, ReadPlane(0), ReadSize(0), ReadCritical(0));
    ReportArrives(Exec(Start(cap, timeout), read), s.senders[0].byCollector, r);
    ExecTwo(cap, timeout, read, SendReport(0), Receive);
  }

  /** From a retired plane to its payload, in every run without an overrun: the thread that
      retired it can report it, the DLOG thread can receive the report, copy the plane and
      clear it, and the payload is the plane's logs, critical if one of them is; the plane
      that is being written is not touched. */
  lemma {:induction false} RetiredPlaneIsCollected(cap: nat, timeout: int, steps: seq<Step>)
    requires CanReport(Exec(Start(cap, timeout), steps))
    ensures var s := Exec(Start(cap, timeout), steps);
            Collects(s, Exec(Start(cap, timeout), steps + [ReadPlane(0)] + [ReadSize(0)] + [ReadCritical(0)]
                               + [SendReport(0)] + [Receive] + [Copy(s.planes.data[s.planes.oldest])] + [Clear]))
  {
    var s := Exec(Start(cap, timeout), steps);
    var received := steps + [ReadPlane(0)] + [ReadSize(0)] + [ReadCritical(0)] + [SendReport(0)] + [Receive];
    var copy := Copy(s.planes.data[s.planes.oldest]);
    ReportIsReceived(cap, timeout, steps);
    RunKeepsUp(cap, timeout, steps);
    RunIsSafe(cap, timeout, received);
    PlaneIsCopied(Exec(Start(cap, timeout), received));
    ExecSnoc(Start(cap, timeout), received, copy);
    RunIsSafe(cap, timeout, received + [copy]);
    CopyIsCollected(Exec(Start(cap, timeout), received + [copy]));
    ExecSnoc(Start(cap, timeout), received + [copy], Clear);
  }
}

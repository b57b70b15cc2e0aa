/**
 Retired planes for which no report is under way.

 The collector learns of a retired plane only from the report of the thread that
 retired it.  A plane without a report waits until a later swap drops it, and with it
 the critical logs it holds, which no tick looks at any more.
 */
module DlogStranding {
  import opened Common
  import opened DlogBuffer
  import opened DlogPipeline

  /** Reports on their way from the thread that retires a plane to its clear. */
  function UnderWay(s: State): nat {
    |s.senders| + |s.queue| + if s.collector.Received? || s.collector.Copied? then 1 else 0
  }

  /** A plane is pending and nothing will collect it. */
  predicate Stranded(s: State) {
    s.planes.status == HalfUse && UnderWay(s) == 0
  }

  /** The causes, read off the state before the step: a write too large for a plane
      retires the current one and is refused, a report is not sent, or it is of an
      empty plane. */
  predicate Strands(s: State, step: Step)
    requires s.planes.WellFormed()
  {
    match step
    case WriteLog(bytes, _) =>
      s.planes.status == Use && !Fits(s.planes.store[s.planes.cur] + |bytes|, s.cap) && |bytes| > s.cap
    case SendFails(i) => i < |s.senders|
    case RefuseEmpty => s.collector.Received? && s.collector.report.size == 0
    case _ => false
  }

  lemma FittingWriteStrands(s: State, bytes: seq<Byte>, isCritical: bool)
    requires Safe(s) && Fits(s.planes.store[s.planes.cur] + |bytes|, s.cap)
    ensures Stranded(WriteStep(s, bytes, isCritical)) <==> Stranded(s)
  {
  }

  lemma RetiringWriteStrands(s: State, bytes: seq<Byte>, isCritical: bool)
    requires Safe(s) && OneReport(s)
    requires s.planes.status == Use && !Fits(s.planes.store[s.planes.cur] + |bytes|, s.cap)
    ensures Stranded(WriteStep(s, bytes, isCritical)) <==> |bytes| > s.cap
  {
  }

  lemma WriteStrands(s: State, bytes: seq<Byte>, isCritical: bool)
    requires Safe(s) && OneReport(s) && !SwapsWhilePending(s, WriteLog(bytes, isCritical))
    ensures Stranded(WriteStep(s, bytes, isCritical))
            <==> Stranded(s) || Strands(s, WriteLog(bytes, isCritical))
  {
    if Fits(s.planes.store[s.planes.cur] + |bytes|, s.cap) {
      FittingWriteStrands(s, bytes, isCritical);
    } else if s.planes.status == Use {
      RetiringWriteStrands(s, bytes, isCritical);
    }
  }

  lemma TickStrands(s: State)
    requires Safe(s) && OneReport(s) && !SwapsWhilePending(s, TickStep) && s.collector == Idle
    ensures Stranded(TickedStep(s)) <==> Stranded(s)
  {
  }

  lemma ReportStrands(s: State, step: Step)
    requires Safe(s) && OneReport(s) && Enabled(s, step)
    requires step.ReadPlane? || step.ReadSize? || step.ReadCritical? || step.SendReport? || step.SendFails?
    ensures Stranded(Apply(s, step)) <==> Stranded(s) || Strands(s, step)
  {
  }

  lemma CollectStrands(s: State, step: Step)
    requires Safe(s) && OneReport(s) && Enabled(s, step)
    requires step.Receive? || step.RefuseEmpty? || step.Copy? || step.Clear? || step.Wait?
    ensures Stranded(Apply(s, step)) <==> Stranded(s) || Strands(s, step)
  {
  }

  /** In a step that does not overrun, a plane becomes stranded exactly by one of the
      causes, and stays so. */
  lemma StepStrands(s: State, step: Step)
    requires KeepsUp(s) && !s.overrun && !SwapsWhilePending(s, step)
    ensures Stranded(Apply(s, step)) <==> Stranded(s) || Strands(s, step)
  {
    if !Enabled(s, step) {
    } else if step.WriteLog? {
      WriteStrands(s, step.bytes, step.isCritical);
    } else if step.TickStep? {
      TickStrands(s);
    } else if step.Receive? || step.RefuseEmpty? || step.Copy? || step.Clear? || step.Wait? {
      CollectStrands(s, step);
    } else {
      ReportStrands(s, step);
    }
  }

  /** Some step of the run was one of the causes. */
  ghost predicate SomeStepStrands(s: State, steps: seq<Step>)
    requires s.planes.WellFormed() && |s.logs| == 2
    decreases |steps|
  {
    steps != [] &&
    (var init := steps[..|steps| - 1];
     SomeStepStrands(s, init) || Strands(Exec(s, init), steps[|steps| - 1]))
  }

  /** In every run without an overrun, a plane is stranded exactly when some step was
      one of the causes: nothing else strands a plane, and nothing rescues one. */
  lemma {:induction false} WhenPlanesAreStranded(cap: nat, timeout: int, steps: seq<Step>)
    requires !Exec(Start(cap, timeout), steps).overrun
    ensures Stranded(Exec(Start(cap, timeout), steps)) <==> SomeStepStrands(Start(cap, timeout), steps)
    decreases |steps|
  {
    if steps != [] {
      var init, last := steps[..|steps| - 1], steps[|steps| - 1];
      WhenStepOverruns(Exec(Start(cap, timeout), init), last);
      WhenPlanesAreStranded(cap, timeout, init);
      RunKeepsUp(cap, timeout, init);
      StepStrands(Exec(Start(cap, timeout), init), last);
    }
  }

  lemma ReportsInUse(s: State)
    requires KeepsUp(s) && !s.overrun
    ensures UnderWay(s) == if s.planes.status == HalfUse && !Stranded(s) then 1 else 0
  {
  }

  /** So in a run with neither an overrun nor a cause, a pending plane has exactly one
      report under way, and no report is under way without one. */
  lemma {:induction false} PendingPlaneHasOneReport(cap: nat, timeout: int, steps: seq<Step>)
    requires !Exec(Start(cap, timeout), steps).overrun
    ensures var s := Exec(Start(cap, timeout), steps);
            UnderWay(s)
            == if s.planes.status == HalfUse && !SomeStepStrands(Start(cap, timeout), steps) then 1 else 0
  {
    RunKeepsUp(cap, timeout, steps);
    WhenPlanesAreStranded(cap, timeout, steps);
    ReportsInUse(Exec(Start(cap, timeout), steps));
  }

  // ------------------------------------------------------- what becomes of its logs

  /** The stranded plane and what has been collected are the same. */
  ghost predicate StillStranded(s: State, t: State)
    requires s.planes.WellFormed() && |s.logs| == 2 && t.planes.WellFormed() && |t.logs| == 2
  {
    && Stranded(t)
    && t.planes.oldest == s.planes.oldest && t.logs[t.planes.oldest] == s.logs[s.planes.oldest]
    && t.batches == s.batches && t.collected == s.collected
  }

  lemma StepLeavesStranded(s: State, step: Step)
    requires Safe(s) && Stranded(s) && !SwapsWhilePending(s, step)
    ensures StillStranded(s, Apply(s, step))
  {
    if step.WriteLog? {
      WriteLeavesStranded(s, step.bytes, step.isCritical);
    }
  }

  lemma WriteLeavesStranded(s: State, bytes: seq<Byte>, isCritical: bool)
    requires Safe(s) && Stranded(s) && Fits(s.planes.store[s.planes.cur] + |bytes|, s.cap)
    ensures StillStranded(s, WriteStep(s, bytes, isCritical))
  {
  }

  /** From any run that has stranded a plane, no continuation without an overrun ever
      collects anything again. */
  lemma {:induction false} StrandedLogsAreNotCollected(cap: nat, timeout: int, before: seq<Step>, after: seq<Step>)
    requires Stranded(Exec(Start(cap, timeout), before))
    requires !Exec(Start(cap, timeout), before + after).overrun
    ensures StillStranded(Exec(Start(cap, timeout), before), Exec(Start(cap, timeout), before + after))
    decreases |after|
  {
    if after == [] {
      assert before + after == before;
    } else {
      var init, last := after[..|after| - 1], after[|after| - 1];
      assert before + after == (before + init) + [last];
      ExecSnoc(Start(cap, timeout), before + init, last);
      var s := Exec(Start(cap, timeout), before + init);
      WhenStepOverruns(s, last);
      StrandedLogsAreNotCollected(cap, timeout, before, init);
      RunIsSafe(cap, timeout, before + init);
      StepLeavesStranded(s, last);
    }
  }

  lemma CriticalThenLarge(critical: seq<Byte>, large: seq<Byte>)
    requires |critical| == 10 && |large| == 49
    ensures var s := Apply(Apply(Start(48, 60), WriteLog(critical, true)), WriteLog(large, false));
            && Stranded(s) && !s.planes.pending && !s.overrun
            && s.planes.oldest == 0 && s.logs[0] == [Log(critical, true, 0)] && s.logs[1] == []
  {
    var s := Apply(Start(48, 60), WriteLog(critical, true));
    assert s.logs[0] == [Log(critical, true, 0)] && s.planes.store[0] == 10 && s.planes.status == Use;
  }

  /** A critical log that misses every deadline: ten bytes, then a log larger than the
      plane, which is refused.  However often the thread ticks, the critical log is
      not collected unless a swap drops it. */
  lemma CriticalLogIsStranded(critical: seq<Byte>, large: seq<Byte>, after: seq<Step>)
    requires |critical| == 10 && |large| == 49
    requires !Exec(Start(48, 60), [WriteLog(critical, true), WriteLog(large, false)] + after).overrun
    ensures var t := Exec(Start(48, 60), [WriteLog(critical, true), WriteLog(large, false)] + after);
            Stranded(t) && t.logs[t.planes.oldest] == [Log(critical, true, 0)] && t.collected == []
  {
    var first, second := WriteLog(critical, true), WriteLog(large, false);
    ExecSnoc(Start(48, 60), [], first);
    assert [] + [first] == [first] && [first] + [second] == [first, second];
    ExecSnoc(Start(48, 60), [first], second);
    CriticalThenLarge(critical, large);
    StrandedLogsAreNotCollected(48, 60, [first, second], after);
  }

  // --------------------------------------------------------- the critical deadline

  lemma CurrentLogIsFresh(s: State, k: nat)
    requires Safe(s) && Accounted(s) && NoStaleCriticalLog(s)
    requires |Flatten(s.batches) + PendingLogs(s)| <= k < |s.accepted|
    ensures s.accepted[k].critical ==> s.now - s.accepted[k].at < s.timeout
  {
    assert s.accepted[k] == s.logs[s.planes.cur][k - |Flatten(s.batches) + PendingLogs(s)|];
  }

  /** The deadline for all critical logs.  After a tick, one that has waited as long as
      the timeout has been collected, or it is in the retired plane; then a report of
      that plane is under way, exactly one, unless an earlier step stranded it. */
  lemma {:induction false} OverdueCriticalLogs(cap: nat, timeout: int, steps: seq<Step>, k: nat)
    requires Exec(Start(cap, timeout), steps).collector == Idle
    requires !Exec(Start(cap, timeout), steps + [TickStep]).overrun
    requires var t := Exec(Start(cap, timeout), steps + [TickStep]);
             k < |t.accepted| && t.accepted[k].critical && t.now - t.accepted[k].at >= timeout
    ensures var t := Exec(Start(cap, timeout), steps + [TickStep]);
            && k < |Flatten(t.batches)| + |PendingLogs(t)|
            && (k >= |Flatten(t.batches)| ==>
                 && t.planes.status == HalfUse
                 && (UnderWay(t) == 1 <==> !SomeStepStrands(Start(cap, timeout), steps + [TickStep])))
  {
    var t := Exec(Start(cap, timeout), steps + [TickStep]);
    ExecSnoc(Start(cap, timeout), steps, TickStep);
    CriticalDeadline(cap, timeout, steps);
    RunKeepsUp(cap, timeout, steps + [TickStep]);
    PendingPlaneHasOneReport(cap, timeout, steps + [TickStep]);
    if k >= |Flatten(t.batches) + PendingLogs(t)| {
      CurrentLogIsFresh(t, k);
    }
  }
}

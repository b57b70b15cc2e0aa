/**
 How often an entry is put to the agent, and how soon the list drains, as long as
 `SYS_process_event` does not fail.
 */
module UploadProgress {
  import opened Common
  import opened UploadList
  import opened UploadScheduler

  // ------------------------------------------------------------- retry bound

  /** A waiting entry has been put once for each of its failures. */
  ghost predicate WaitingBudget(e: Entry) {
    e.puts == e.retries < MAX_RETRY
  }

  /** The flagged entry: one put more than failures while the agent has it. */
  ghost predicate FlaggedBudget(e: Entry, agent: Agent, blob: Blob) {
    match e.status
    case Finished => !blob.Setting? && e.puts <= MAX_RETRY && e.retries <= MAX_RETRY
    case _ =>
      if agent.Busy? then e.puts == e.retries + 1 <= MAX_RETRY
      else if blob.Setting? && blob.status == Finished then e.puts <= MAX_RETRY && e.retries <= MAX_RETRY
      else WaitingBudget(e)
  }

  ghost predicate Budget(s: State) {
    && !s.faults
    && (s.blob.Setting? ==> s.blob.about.Some?)
    && (forall i :: 0 <= i < |s.entries| ==>
          if s.entries[i].priority then FlaggedBudget(s.entries[i], s.agent, s.blob) else WaitingBudget(s.entries[i]))
    && (forall i :: 0 <= i < |s.retired| ==> s.retired[i].puts <= MAX_RETRY)
  }

  /** Nothing but the flagged entry depends on the agent and the thread. */
  lemma BudgetByFlag(s: State, t: State, i: nat)
    requires Coherent(s) && Budget(s) && !t.faults && t.retired == s.retired
    requires t.blob.Setting? ==> t.blob.about.Some?
    requires i < |s.entries| && s.entries[i].priority
    requires |t.entries| == |s.entries| && forall j :: 0 <= j < |s.entries| && j != i ==> t.entries[j] == s.entries[j]
    requires if t.entries[i].priority then FlaggedBudget(t.entries[i], t.agent, t.blob) else WaitingBudget(t.entries[i])
    ensures Budget(t)
  {
  }

  lemma InsertKeepsBudget(s: State)
    requires Coherent(s) && Budget(s) && s.dlog.Checked?
    ensures Budget(InsertedStep(s))
  {
    var t := InsertedStep(s);
    assert forall j :: 0 < j < |t.entries| ==> t.entries[j] == s.entries[j - 1];
  }

  lemma ChooseKeepsBudget(s: State)
    requires Coherent(s) && Budget(s) && s.blob == Idle
    ensures Budget(ChosenStep(s))
  {
    if s.entries != [] && Flagged(s.entries).None? {
      FlagKeepsList(s.entries, |s.registered|);
      var t := Target(s.entries).value;
      assert !s.entries[t].priority && EntryOk(s.entries[t]) && s.agent == Quiet;
    }
  }

  lemma RemovalLeavesWaiting(s: State, i: nat)
    requires Coherent(s) && Budget(s) && i < |s.entries| && s.entries[i].priority
    ensures forall j :: 0 <= j < |s.entries| - 1 ==>
              var e := Without(s.entries, i)[j]; !e.priority && WaitingBudget(e)
  {
    forall j | 0 <= j < |s.entries| - 1
      ensures !Without(s.entries, i)[j].priority && WaitingBudget(Without(s.entries, i)[j])
    {
      assert Without(s.entries, i)[j] == s.entries[if j < i then j else j + 1];
    }
  }

  lemma UnregisterKeepsBudget(s: State)
    requires Coherent(s) && Budget(s) && ChosenHas(s, Finished)
    ensures Budget(UnregisteredStep(s))
  {
    FlaggedIsTarget(s.entries, |s.registered|, s.blob.id);
    var i := Find(s.entries, s.blob.id);
    RemovalLeavesWaiting(s, i);
    assert FlaggedBudget(s.entries[i], s.agent, s.blob);
  }

  lemma PointerStepKeepsBudget(s: State, step: Step)
    requires Coherent(s) && Budget(s) && Enabled(s, step)
    requires step.NameFails? || step.PutAccepted? || step.PutRefused? || step.LeaveUploading?
    ensures Budget(Apply(s, step))
  {
    FlaggedIsTarget(s.entries, |s.registered|, s.blob.id);
    BudgetByFlag(s, Apply(s, step), Find(s.entries, s.blob.id));
  }

  lemma CallbackKeepsBudget(s: State, step: Step)
    requires Coherent(s) && Budget(s) && Enabled(s, step)
    requires step.MoreData? || step.UploadFinished? || step.UploadFailed?
    ensures Budget(Apply(s, step))
  {
    FlaggedIsTarget(s.entries, |s.registered|, s.agent.id);
    BudgetByFlag(s, Apply(s, step), Find(s.entries, s.agent.id));
  }

  lemma SetKeepsBudget(s: State)
    requires Coherent(s) && Budget(s) && s.blob.Setting?
    ensures Budget(SetStep(s))
  {
    FlaggedIsTarget(s.entries, |s.registered|, s.blob.about.value);
    BudgetByFlag(s, SetStep(s), Find(s.entries, s.blob.about.value));
  }

  lemma StepKeepsBudget(s: State, step: Step)
    requires Coherent(s) && Budget(s) && !step.ProcessingFails?
    ensures Budget(Apply(s, step))
  {
    if Enabled(s, step) {
      match step {
        case Insert => InsertKeepsBudget(s);
        case Choose => ChooseKeepsBudget(s);
        case Unregister => UnregisterKeepsBudget(s);
        case SetStatus => SetKeepsBudget(s);
        case MoreData(len) => CallbackKeepsBudget(s, step);
        case UploadFinished => CallbackKeepsBudget(s, step);
        case UploadFailed => CallbackKeepsBudget(s, step);
        case CheckRoom(log) =>
        case Notify =>
        case EnterProcessing =>
        case LeaveProcessing =>
        case _ => PointerStepKeepsBudget(s, step);
      }
    }
  }

  lemma FaultsAreForever(s: State, step: Step)
    ensures s.faults || (Enabled(s, step) && step.ProcessingFails?) <==> Apply(s, step).faults
  {
  }

  lemma {:induction false} RunKeepsBudget(max: nat, steps: seq<Step>)
    requires !Exec(Start(max), steps).faults
    ensures Budget(Exec(Start(max), steps))
    decreases |steps|
  {
    if steps != [] {
      var s, step := Exec(Start(max), steps[..|steps| - 1]), steps[|steps| - 1];
      FaultsAreForever(s, step);
      RunKeepsBudget(max, steps[..|steps| - 1]);
      RunIsCoherent(max, steps[..|steps| - 1]);
      if !step.ProcessingFails? {
        StepKeepsBudget(s, step);
      }
    }
  }

  /** As long as the agent's event loop does not fail, no entry is put to the
      agent more than three times. */
  lemma {:induction false} AtMostThreePuts(max: nat, steps: seq<Step>)
    requires !Exec(Start(max), steps).faults
    ensures var s := Exec(Start(max), steps);
            && (forall i :: 0 <= i < |s.entries| ==> s.entries[i].puts <= MAX_RETRY)
            && (forall i :: 0 <= i < |s.retired| ==> s.retired[i].puts <= MAX_RETRY)
  {
    RunKeepsBudget(max, steps);
  }

  // -------------------------------------------------------------------- drain

  function Phase(status: UploadStatus): nat {
    match status case Request => 3 case Uploading => 2 case Finished => 1
  }

  function Weight(e: Entry): nat {
    3 * (if e.retries < MAX_RETRY then MAX_RETRY - e.retries else 0) + Phase(e.status)
  }

  function Total(entries: seq<Entry>): nat {
    if entries == [] then 0 else Total(entries[..|entries| - 1]) + Weight(entries[|entries| - 1])
  }

  /** The work left, with a status change under way counted as made. */
  function Measure(s: State): nat {
    Total(if s.blob.Setting? then WithStatus(s.entries, s.blob.status) else s.entries)
  }

  lemma {:induction false} TotalConcat(a: seq<Entry>, b: seq<Entry>)
    ensures Total(a + b) == Total(a) + Total(b)
    decreases |b|
  {
    if b == [] {
      assert a + b == a;
    } else {
      assert (a + b)[..|a + b| - 1] == a + b[..|b| - 1];
      TotalConcat(a, b[..|b| - 1]);
    }
  }

  lemma TotalAround(entries: seq<Entry>, i: nat)
    requires i < |entries|
    ensures Total(entries) == Total(entries[..i]) + Weight(entries[i]) + Total(entries[i + 1..])
  {
    assert entries == (entries[..i] + [entries[i]]) + entries[i + 1..];
    TotalConcat(entries[..i] + [entries[i]], entries[i + 1..]);
    TotalConcat(entries[..i], [entries[i]]);
    assert [entries[i]][..0] == [];
  }

  lemma TotalUpdate(entries: seq<Entry>, i: nat, e: Entry)
    requires i < |entries|
    ensures Total(entries[i := e]) + Weight(entries[i]) == Total(entries) + Weight(e)
  {
    TotalAround(entries, i);
    TotalAround(entries[i := e], i);
    assert entries[i := e][..i] == entries[..i] && entries[i := e][i + 1..] == entries[i + 1..];
  }

  lemma TotalWithout(entries: seq<Entry>, i: nat)
    requires i < |entries|
    ensures Total(Without(entries, i)) + Weight(entries[i]) == Total(entries)
  {
    TotalAround(entries, i);
    TotalConcat(entries[..i], entries[i + 1..]);
  }

  lemma {:induction false} TotalIsBounded(entries: seq<Entry>)
    ensures Total(entries) <= 12 * |entries|
    ensures |entries| <= Total(entries)
    decreases |entries|
  {
    if entries != [] {
      TotalIsBounded(entries[..|entries| - 1]);
    }
  }

  /** The steps that bring an entry closer to the end. */
  ghost predicate Progress(s: State, step: Step) {
    Enabled(s, step) && (step.PutAccepted? || step.UploadFinished? || step.UploadFailed? || step.Unregister?)
  }

  /** What setting a status does to the total when an entry is flagged. */
  lemma SetTotal(entries: seq<Entry>, bound: nat, status: UploadStatus)
    requires ListOk(entries, bound) && Flagged(entries).Some?
    ensures Total(WithStatus(entries, status)) + Phase(Flagged(entries).value.status)
         == Total(entries) + Phase(status)
  {
    var id := Flagged(entries).value.id;
    FlaggedIsTarget(entries, bound, id);
    var i := Find(entries, id);
    TotalUpdate(entries, i, WithStatus(entries, status)[i]);
  }

  lemma PutSpends(s: State)
    requires Coherent(s) && ChosenHas(s, Request)
    ensures Measure(PutStep(s)) == Measure(s) - 1
  {
    PutKeepsList(s);
    var t := PutStep(s);
    var i := Find(s.entries, s.blob.id);
    TotalUpdate(s.entries, i, t.entries[i]);
    SetTotal(t.entries, |s.registered|, Uploading);
  }

  lemma RefusedSpends(s: State)
    requires Coherent(s) && ChosenHas(s, Request)
    ensures Measure(Apply(s, PutRefused)) == Measure(s)
  {
    PointerIsFlagged(s);
    SetTotal(s.entries, |s.registered|, Request);
  }

  lemma FinishSpends(s: State)
    requires Coherent(s) && AgentHolds(s)
    ensures Measure(FinishedStep(s)) == Measure(s) - 1
  {
    SetTotal(s.entries, |s.registered|, Finished);
  }

  lemma FailSpends(s: State)
    requires Coherent(s) && Budget(s) && AgentHolds(s)
    ensures Measure(FailedStep(s)) <= Measure(s) - 2
  {
    FailKeepsList(s);
    var i, t := Find(s.entries, s.agent.id), FailedStep(s);
    FlaggedIsTarget(s.entries, |s.registered|, s.agent.id);
    assert s.entries[i].retries < MAX_RETRY;
    TotalUpdate(s.entries, i, t.entries[i]);
    SetTotal(t.entries, |s.registered|, t.blob.status);
  }

  lemma UnregisterSpends(s: State)
    requires Coherent(s) && ChosenHas(s, Finished)
    ensures Measure(UnregisteredStep(s)) < Measure(s)
  {
    FlaggedIsTarget(s.entries, |s.registered|, s.blob.id);
    TotalWithout(s.entries, Find(s.entries, s.blob.id));
  }

  lemma ChooseSpends(s: State)
    requires s.blob == Idle
    ensures Measure(ChosenStep(s)) == Measure(s)
  {
    var t := Target(s.entries);
    if t.Some? {
      TotalUpdate(s.entries, t.value, WithFlag(s.entries)[t.value]);
    }
  }

  lemma MoreDataSpends(s: State, len: nat)
    requires AgentHolds(s)
    ensures Measure(MoreDataStep(s, len)) == Measure(s)
  {
    var i := Find(s.entries, s.agent.id);
    TotalUpdate(s.entries, i, MoreDataStep(s, len).entries[i]);
  }

  /** A registration adds its full weight. */
  lemma InsertAdds(s: State)
    requires Coherent(s) && s.dlog.Checked? && (s.blob.Setting? ==> s.blob.about.Some?)
    ensures Measure(InsertedStep(s)) == Measure(s) + 12
  {
    var e, t := NewEntry(|s.registered|, s.dlog.log), InsertedStep(s);
    assert [e][..0] == [] && Total([e]) == 12;
    TotalConcat([e], s.entries);
    if s.blob.Setting? {
      InsertKeepsCoherent(s);
      InsertKeepsFlag(s.entries, e);
      SetTotal(s.entries, |s.registered|, s.blob.status);
      SetTotal(t.entries, |t.registered|, s.blob.status);
    }
  }

  ghost predicate ChangesEntries(step: Step) {
    step.PutAccepted? || step.PutRefused? || step.UploadFinished? || step.UploadFailed? || step.Unregister?
    || step.Choose? || step.MoreData? || step.Insert? || step.SetStatus? || step.ProcessingFails?
  }

  lemma QuietStepSpends(s: State, step: Step)
    requires !ChangesEntries(step)
    ensures Measure(Apply(s, step)) == Measure(s)
  {
  }

  /** No step but a registration adds work, and each progress step takes some. */
  lemma StepSpends(s: State, step: Step)
    requires Coherent(s) && Budget(s) && Enabled(s, step) && !step.ProcessingFails?
    ensures Measure(Apply(s, step)) + (if Progress(s, step) then 1 else 0)
         <= Measure(s) + if step.Insert? then 12 else 0
  {
    if !ChangesEntries(step) {
      QuietStepSpends(s, step);
    } else {
      match step {
        case PutAccepted => PutSpends(s);
        case PutRefused => RefusedSpends(s);
        case UploadFinished => FinishSpends(s);
        case UploadFailed => FailSpends(s);
        case Unregister => UnregisterSpends(s);
        case Choose => ChooseSpends(s);
        case MoreData(len) => MoreDataSpends(s, len);
        case Insert => InsertAdds(s);
        case SetStatus =>
      }
    }
  }

  ghost function ProgressCount(s: State, steps: seq<Step>): nat
    decreases |steps|
  {
    if steps == [] then 0
    else
      var init := steps[..|steps| - 1];
      ProgressCount(s, init) + if Progress(Exec(s, init), steps[|steps| - 1]) then 1 else 0
  }

  lemma RegistrationsGrow(s: State, step: Step)
    ensures |Apply(s, step).registered| == |s.registered| + if Enabled(s, step) && step.Insert? then 1 else 0
  {
  }

  /** In a run without faults the accepted puts, their ends and the retirements
      together number at most twelve for each registration. */
  lemma {:induction false} WorkIsBounded(max: nat, steps: seq<Step>)
    requires !Exec(Start(max), steps).faults
    ensures var s := Exec(Start(max), steps);
            ProgressCount(Start(max), steps) + Measure(s) <= 12 * |s.registered|
    decreases |steps|
  {
    if steps != [] {
      var init, step := steps[..|steps| - 1], steps[|steps| - 1];
      var s := Exec(Start(max), init);
      FaultsAreForever(s, step);
      RegistrationsGrow(s, step);
      WorkIsBounded(max, init);
      RunIsCoherent(max, init);
      RunKeepsBudget(max, init);
      if Enabled(s, step) && !step.ProcessingFails? {
        StepSpends(s, step);
      }
    }
  }

  // ------------------------------------------------- the list drains in passes

  ghost predicate Puts(step: Step) {
    step.PutAccepted? || step.PutRefused? || step.NameFails?
  }

  ghost predicate Ends(step: Step) {
    step.UploadFinished? || step.UploadFailed?
  }

  /** What else can happen at any point: chunks, and length checks of the DLOG thread. */
  ghost predicate IsNoise(step: Step) {
    step.MoreData? || step.CheckRoom?
  }

  /** The run without chunks and length checks. */
  ghost function Skeleton(steps: seq<Step>): seq<Step> {
    if steps == [] then []
    else
      var last := steps[|steps| - 1];
      Skeleton(steps[..|steps| - 1]) + if IsNoise(last) then [] else [last]
  }

  function BeforeProcessing(put: Step): seq<Step> {
    [Choose, put, SetStatus, LeaveUploading, Unregister, Notify, EnterProcessing]
  }

  /** The blob thread's own steps in a pass of its loop; what does not apply is
      skipped.  A pass in which the processing times out ends no upload. */
  function PassSteps(put: Step, ended: Option<Step>): seq<Step> {
    BeforeProcessing(put)
    + match ended case None => [LeaveProcessing] case Some(e) => [e, SetStatus, LeaveProcessing]
  }

  /** `put`: how the put of a waiting entry turns out.  `ended`: how a running upload
      ends, if it does. */
  datatype Pass = Pass(steps: seq<Step>, put: Step, ended: Option<Step>)

  ghost predicate IsPass(p: Pass) {
    && Puts(p.put) && (p.ended.Some? ==> Ends(p.ended.value))
    && Skeleton(p.steps) == PassSteps(p.put, p.ended)
  }

  /** A put is accepted, and a running upload ends. */
  ghost predicate Advances(p: Pass) {
    p.put.PutAccepted? && p.ended.Some?
  }

  ghost predicate Good(s: State) {
    Coherent(s) && Budget(s)
  }

  lemma GoodStep(s: State, step: Step)
    requires Good(s) && !step.ProcessingFails? && !step.Insert?
    ensures Good(Apply(s, step))
    ensures Measure(Apply(s, step)) + (if Progress(s, step) then 1 else 0) <= Measure(s)
  {
    if Enabled(s, step) {
      StepKeepsCoherent(s, step);
      StepKeepsBudget(s, step);
      StepSpends(s, step);
    }
  }

  /** Less work than `m`. */
  ghost predicate Spent(s: State, m: nat) {
    Good(s) && Measure(s) < m
  }

  /** An advancing pass may still have to do its share. */
  ghost predicate Owing(s: State, m: nat, advances: bool) {
    Good(s) && (if advances then Measure(s) <= m else Measure(s) < m)
  }

  ghost predicate Running(s: State) {
    ChosenHas(s, Uploading) && s.agent.Busy?
  }

  /** The list is empty and stays so through a pass. */
  ghost predicate Drained(s: State, k: nat) {
    Good(s) && s.entries == [] && s.blob == if 7 <= k <= 9 then Processing else Idle
  }

  /** Where a pass that started with `m` work left stands after `k` of its own steps;
      one without an end leaves out 8 and 9. */
  ghost predicate Stage(s: State, m: nat, k: nat, advances: bool) {
    || Drained(s, k)
    || match k
       case 0 => Owing(s, m, advances) && s.blob == Idle && s.entries != []
       case 1 => Owing(s, m, advances) && (ChosenHas(s, Request) || Running(s) || ChosenHas(s, Finished))
       case 2 =>
         || (Spent(s, m) && (s.blob == Idle || (s.blob.Setting? && !s.blob.processing)))
         || (Owing(s, m, advances) && (Running(s) || ChosenHas(s, Finished)))
       case 3 =>
         || (Spent(s, m) && s.blob == Idle)
         || (Owing(s, m, advances) && (Running(s) || ChosenHas(s, Finished)))
       case 4 =>
         || (Spent(s, m) && s.blob == Idle)
         || (Owing(s, m, advances) && ((s.blob == Idle && s.agent.Busy?) || ChosenHas(s, Finished)))
       case 5 =>
         || (Spent(s, m) && (s.blob == Idle || s.blob.Notifying?))
         || (Owing(s, m, advances) && s.blob == Idle && s.agent.Busy?)
       case 6 => s.blob == Idle && (Spent(s, m) || (Owing(s, m, advances) && s.agent.Busy?))
       case 7 => s.blob == Processing && (Spent(s, m) || (Owing(s, m, advances) && s.agent.Busy?))
       case 8 => Spent(s, m) && (s.blob == Processing || (s.blob.Setting? && s.blob.processing))
       case 9 => Spent(s, m) && s.blob == Processing
       case _ => Spent(s, m) && s.blob == Idle
  }

  lemma CheckSpares(s: State, log: Log)
    ensures var t := Apply(s, CheckRoom(log)); t.entries == s.entries && t.blob == s.blob && t.agent == s.agent
  {
  }

  lemma StageIsGood(s: State, m: nat, k: nat, advances: bool)
    requires Stage(s, m, k, advances)
    ensures Good(s)
  {
  }

  lemma StageFrame(s: State, t: State, m: nat, k: nat, advances: bool)
    requires Stage(s, m, k, advances) && Good(t) && Measure(t) == Measure(s)
    requires t.entries == s.entries && t.blob == s.blob && t.agent == s.agent
    ensures Stage(t, m, k, advances)
  {
  }

  lemma GoodCheck(s: State, log: Log)
    requires Good(s)
    ensures var t := Apply(s, CheckRoom(log)); Good(t) && Measure(t) == Measure(s)
  {
    GoodStep(s, CheckRoom(log));
    CheckSpares(s, log);
  }

  lemma CheckKeepsStage(s: State, m: nat, k: nat, advances: bool, log: Log)
    requires Stage(s, m, k, advances)
    ensures Stage(Apply(s, CheckRoom(log)), m, k, advances)
  {
    StageIsGood(s, m, k, advances);
    GoodCheck(s, log);
    CheckSpares(s, log);
    StageFrame(s, Apply(s, CheckRoom(log)), m, k, advances);
  }

  lemma ChunkKeepsStage(s: State, m: nat, k: nat, advances: bool, len: nat)
    requires Stage(s, m, k, advances)
    ensures Stage(Apply(s, MoreData(len)), m, k, advances)
  {
    GoodStep(s, MoreData(len));
  }

  lemma NoiseKeepsStage(s: State, m: nat, k: nat, advances: bool, step: Step)
    requires Stage(s, m, k, advances) && IsNoise(step)
    ensures Stage(Apply(s, step), m, k, advances)
  {
    if step.CheckRoom? {
      CheckKeepsStage(s, m, k, advances, step.log);
    } else {
      ChunkKeepsStage(s, m, k, advances, step.len);
    }
  }

  lemma ChooseStage(s: State, m: nat, advances: bool)
    requires Stage(s, m, 0, advances) && !Drained(s, 0)
    ensures Stage(Apply(s, Choose), m, 1, advances)
  {
    GoodStep(s, Choose);
    TargetExists(s.entries);
    var t := Apply(s, Choose);
    PointerIsFlagged(t);
    FlaggedIsTarget(t.entries, |t.registered|, t.blob.id);
  }

  lemma PutStage(s: State, m: nat, advances: bool, put: Step)
    requires Stage(s, m, 1, advances) && !Drained(s, 1)
    requires Puts(put) && (advances ==> put.PutAccepted?)
    ensures Stage(Apply(s, put), m, 2, advances)
  {
    GoodStep(s, put);
  }

  lemma SetStage(s: State, m: nat, k: nat, advances: bool)
    requires Stage(s, m, k, advances) && !Drained(s, k) && (k == 2 || k == 8)
    ensures Stage(Apply(s, SetStatus), m, k + 1, advances)
  {
    GoodStep(s, SetStatus);
  }

  lemma LeaveStage(s: State, m: nat, advances: bool)
    requires Stage(s, m, 3, advances)
    ensures Stage(Apply(s, LeaveUploading), m, 4, advances)
  {
    if ChosenHas(s, Uploading) {
      LeavingStage(s, m, advances);
    } else {
      assert Apply(s, LeaveUploading) == s;
    }
  }

  lemma LeavingStage(s: State, m: nat, advances: bool)
    requires Stage(s, m, 3, advances) && ChosenHas(s, Uploading)
    ensures Stage(Apply(s, LeaveUploading), m, 4, advances)
  {
    GoodStep(s, LeaveUploading);
    assert Apply(s, LeaveUploading) == s.(blob := Idle);
  }

  lemma UnregisterStage(s: State, m: nat, advances: bool)
    requires Stage(s, m, 4, advances)
    ensures Stage(Apply(s, Unregister), m, 5, advances)
  {
    GoodStep(s, Unregister);
  }

  lemma NotifyStage(s: State, m: nat, advances: bool)
    requires Stage(s, m, 5, advances)
    ensures Stage(Apply(s, Notify), m, 6, advances)
  {
    GoodStep(s, Notify);
  }

  lemma EnterStage(s: State, m: nat, advances: bool)
    requires Stage(s, m, 6, advances)
    ensures Stage(Apply(s, EnterProcessing), m, 7, advances)
  {
    GoodStep(s, EnterProcessing);
  }

  lemma BusyAgentHolds(s: State)
    requires Coherent(s) && s.blob == Processing && s.agent.Busy?
    ensures AgentHolds(s)
  {
    FlaggedIsTarget(s.entries, |s.registered|, s.agent.id);
  }

  lemma EndMovesThread(s: State, ended: Step)
    requires s.blob == Processing && Ends(ended)
    ensures var t := Apply(s, ended); t.blob == Processing || (t.blob.Setting? && t.blob.processing)
  {
  }

  lemma GoodEnd(s: State, ended: Step)
    requires Good(s) && AgentHolds(s) && Ends(ended)
    ensures Good(Apply(s, ended)) && Measure(Apply(s, ended)) < Measure(s)
  {
    StepKeepsCoherent(s, ended);
    StepKeepsBudget(s, ended);
    StepSpends(s, ended);
  }

  lemma EndSpends(s: State, m: nat, advances: bool, ended: Step)
    requires s.blob == Processing && Ends(ended) && (Spent(s, m) || (Owing(s, m, advances) && s.agent.Busy?))
    ensures Spent(Apply(s, ended), m)
  {
    if s.agent.Busy? {
      BusyAgentHolds(s);
      GoodEnd(s, ended);
    } else {
      assert Apply(s, ended) == s;
    }
  }

  lemma EndStage(s: State, m: nat, advances: bool, ended: Step)
    requires Stage(s, m, 7, advances) && !Drained(s, 7) && Ends(ended)
    ensures Stage(Apply(s, ended), m, 8, advances)
  {
    EndSpends(s, m, advances, ended);
    EndMovesThread(s, ended);
  }

  lemma ExitStage(s: State, m: nat, k: nat, advances: bool)
    requires Stage(s, m, k, advances) && (k == 9 || (k == 7 && !advances))
    ensures Stage(Apply(s, LeaveProcessing), m, 10, advances)
  {
    GoodStep(s, LeaveProcessing);
  }

  /** The number of the stage after `k` own steps. */
  function StageAfter(ended: Option<Step>, k: nat): nat {
    if ended.None? && k == 8 then 10 else k
  }

  lemma DrainedIdle(s: State, step: Step)
    requires s.entries == [] && s.blob == Idle
    requires Puts(step) || step in [Choose, SetStatus, LeaveUploading, Unregister, Notify]
    ensures Apply(s, step) == s
  {
    assert Target(s.entries).None?;
  }

  lemma DrainedProcessing(s: State, step: Step)
    requires s.entries == [] && s.blob == Processing && (Ends(step) || step == SetStatus)
    ensures Apply(s, step) == s
  {
  }

  lemma DrainedStage(s: State, k: nat, p: Pass)
    requires IsPass(p) && k < |PassSteps(p.put, p.ended)| && Drained(s, StageAfter(p.ended, k))
    ensures Drained(Apply(s, PassSteps(p.put, p.ended)[k]), StageAfter(p.ended, k + 1))
  {
    var step := PassSteps(p.put, p.ended)[k];
    GoodStep(s, step);
    if k < 6 {
      DrainedIdle(s, step);
    } else if step != EnterProcessing && step != LeaveProcessing {
      DrainedProcessing(s, step);
    }
  }

  lemma EarlyStages(s: State, m: nat, k: nat, p: Pass)
    requires IsPass(p) && Stage(s, m, k, Advances(p)) && !Drained(s, k) && k < 7
    ensures Stage(Apply(s, BeforeProcessing(p.put)[k]), m, k + 1, Advances(p))
  {
    match k
    case 0 => ChooseStage(s, m, Advances(p));
    case 1 => PutStage(s, m, Advances(p), p.put);
    case 2 => SetStage(s, m, 2, Advances(p));
    case 3 => LeaveStage(s, m, Advances(p));
    case 4 => UnregisterStage(s, m, Advances(p));
    case 5 => NotifyStage(s, m, Advances(p));
    case _ => EnterStage(s, m, Advances(p));
  }

  lemma LateStages(s: State, m: nat, k: nat, p: Pass)
    requires IsPass(p) && Stage(s, m, k, Advances(p)) && !Drained(s, k) && 7 <= k < |PassSteps(p.put, p.ended)|
    ensures Stage(Apply(s, PassSteps(p.put, p.ended)[k]), m, StageAfter(p.ended, k + 1), Advances(p))
  {
    if p.ended.None? || k == 9 {
      ExitStage(s, m, k, Advances(p));
    } else if k == 7 {
      EndStage(s, m, Advances(p), p.ended.value);
    } else {
      SetStage(s, m, 8, Advances(p));
    }
  }

  lemma NextStage(s: State, m: nat, k: nat, p: Pass)
    requires IsPass(p) && k < |PassSteps(p.put, p.ended)| && Stage(s, m, k, Advances(p))
    ensures Stage(Apply(s, PassSteps(p.put, p.ended)[k]), m, StageAfter(p.ended, k + 1), Advances(p))
  {
    if Drained(s, k) {
      DrainedStage(s, k, p);
    } else if k < 7 {
      EarlyStages(s, m, k, p);
    } else {
      LateStages(s, m, k, p);
    }
  }

  /** Any beginning of a pass, `k` of its own steps long. */
  lemma {:induction false} PassReaches(s: State, m: nat, p: Pass, steps: seq<Step>, k: nat)
    requires IsPass(p) && Stage(s, m, 0, Advances(p))
    requires k <= |PassSteps(p.put, p.ended)| && Skeleton(steps) == PassSteps(p.put, p.ended)[..k]
    ensures Stage(Exec(s, steps), m, StageAfter(p.ended, k), Advances(p))
    decreases |steps|
  {
    if steps == [] {
      assert k == |Skeleton(steps)| == 0;
    } else {
      var init, last := steps[..|steps| - 1], steps[|steps| - 1];
      if IsNoise(last) {
        assert Skeleton(steps) == Skeleton(init);
        PassReaches(s, m, p, init, k);
        NoiseKeepsStage(Exec(s, init), m, StageAfter(p.ended, k), Advances(p), last);
      } else {
        SkeletonSnoc(steps, PassSteps(p.put, p.ended), k);
        PassReaches(s, m, p, init, k - 1);
        NextStage(Exec(s, init), m, k - 1, p);
      }
    }
  }

  lemma SkeletonSnoc(steps: seq<Step>, own: seq<Step>, k: nat)
    requires steps != [] && !IsNoise(steps[|steps| - 1]) && k <= |own| && Skeleton(steps) == own[..k]
    ensures k >= 1 && Skeleton(steps[..|steps| - 1]) == own[..k - 1] && steps[|steps| - 1] == own[k - 1]
  {
    var init := Skeleton(steps[..|steps| - 1]);
    assert Skeleton(steps) == init + [steps[|steps| - 1]];
    assert own[..k][..k - 1] == own[..k - 1];
    assert init == Skeleton(steps)[..|init|];
  }

  /** A pass ends with the thread back at the start of its loop and no more work than
      before, and less if it advances and there is any. */
  lemma PassSpends(s: State, p: Pass)
    requires IsPass(p) && Good(s) && s.blob == Idle
    ensures var t := Exec(s, p.steps);
            && Good(t) && t.blob == Idle && Measure(t) <= Measure(s)
            && (Advances(p) && Measure(s) > 0 ==> Measure(t) < Measure(s))
  {
    var m := if Advances(p) then Measure(s) else Measure(s) + 1;
    var own := PassSteps(p.put, p.ended);
    TotalIsBounded(s.entries);
    assert own[..|own|] == own;
    PassReaches(s, m, p, p.steps, |own|);
    TotalIsBounded(Exec(s, p.steps).entries);
  }

  lemma ExecSnoc(s: State, steps: seq<Step>, step: Step)
    ensures Exec(s, steps + [step]) == Apply(Exec(s, steps), step)
  {
    assert (steps + [step])[..|steps|] == steps;
  }

  lemma {:induction false} ExecConcat(s: State, a: seq<Step>, b: seq<Step>)
    ensures Exec(s, a + b) == Exec(Exec(s, a), b)
    decreases |b|
  {
    if b == [] {
      assert a + b == a;
    } else {
      ExecConcat(s, a, b[..|b| - 1]);
      assert a + b == (a + b[..|b| - 1]) + [b[|b| - 1]];
      ExecSnoc(s, a + b[..|b| - 1], b[|b| - 1]);
    }
  }

  function AllSteps(passes: seq<Pass>): seq<Step> {
    if passes == [] then [] else passes[0].steps + AllSteps(passes[1..])
  }

  ghost function AdvanceCount(passes: seq<Pass>): nat {
    if passes == [] then 0 else (if Advances(passes[0]) then 1 else 0) + AdvanceCount(passes[1..])
  }

  lemma {:induction false} PassesDrain(s: State, passes: seq<Pass>)
    requires Good(s) && s.blob == Idle && Measure(s) <= AdvanceCount(passes)
    requires forall i :: 0 <= i < |passes| ==> IsPass(passes[i])
    ensures Exec(s, AllSteps(passes)).entries == []
    decreases |passes|
  {
    TotalIsBounded(s.entries);
    if passes != [] {
      PassSpends(s, passes[0]);
      ExecConcat(s, passes[0].steps, AllSteps(passes[1..]));
      PassesDrain(Exec(s, passes[0].steps), passes[1..]);
    }
  }

  /** From any fault-free state in which the blob thread is about to start a pass, in
      any sequence of passes with any chunks and length checks in them, whether or not
      their puts are accepted and uploads end: the list is empty once twelve passes
      for each entry have advanced. */
  lemma {:induction false} ListDrains(max: nat, steps: seq<Step>, passes: seq<Pass>)
    requires var s := Exec(Start(max), steps);
             !s.faults && s.blob == Idle && 12 * |s.entries| <= AdvanceCount(passes)
    requires forall i :: 0 <= i < |passes| ==> IsPass(passes[i])
    ensures Exec(Start(max), steps + AllSteps(passes)).entries == []
  {
    var s := Exec(Start(max), steps);
    RunIsCoherent(max, steps);
    RunKeepsBudget(max, steps);
    TotalIsBounded(s.entries);
    PassesDrain(s, passes);
    ExecConcat(Start(max), steps, AllSteps(passes));
  }
}

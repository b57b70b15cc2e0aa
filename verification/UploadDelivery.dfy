/**
 What becomes of an entry as long as `SYS_process_event` does not fail: it is delivered
 once, or it fails three times.
 */
module UploadDelivery {
  import opened Common
  import opened UploadList
  import opened UploadProgress
  import opened UploadProperties
  import opened UploadScheduler

  /** How many of the finished uploads were of this entry. */
  function CountFor(deliveries: seq<Delivery>, id: nat): nat {
    if deliveries == [] then 0
    else
      CountFor(deliveries[..|deliveries| - 1], id) + if deliveries[|deliveries| - 1].id == id then 1 else 0
  }

  /** One, unless the last retry has failed. */
  function Expected(e: Entry): nat {
    if e.retries < MAX_RETRY then 1 else 0
  }

  /** An entry has been dealt with once its upload has ended for good. */
  function Due(e: Entry, blob: Blob): nat {
    if e.priority && (e.status == Finished || (blob.Setting? && blob.status == Finished)) then Expected(e) else 0
  }

  ghost predicate ListedAsDue(entries: seq<Entry>, blob: Blob, deliveries: seq<Delivery>) {
    forall i :: 0 <= i < |entries| ==> CountFor(deliveries, entries[i].id) == Due(entries[i], blob)
  }

  ghost predicate RetiredAsExpected(retired: seq<Entry>, deliveries: seq<Delivery>) {
    forall k :: 0 <= k < |retired| ==>
      retired[k].retries <= MAX_RETRY && CountFor(deliveries, retired[k].id) == Expected(retired[k])
  }

  ghost predicate Accounted(s: State) {
    ListedAsDue(s.entries, s.blob, s.deliveries) && RetiredAsExpected(s.retired, s.deliveries)
  }

  lemma CountNext(deliveries: seq<Delivery>, d: Delivery, id: nat)
    ensures CountFor(deliveries + [d], id) == CountFor(deliveries, id) + if d.id == id then 1 else 0
  {
    assert (deliveries + [d])[..|deliveries|] == deliveries;
  }

  lemma {:induction false} CountNone(deliveries: seq<Delivery>, id: nat)
    requires forall k :: 0 <= k < |deliveries| ==> deliveries[k].id != id
    ensures CountFor(deliveries, id) == 0
    decreases |deliveries|
  {
    if deliveries != [] {
      CountNone(deliveries[..|deliveries| - 1], id);
    }
  }

  /** Nothing but the flagged entry depends on where the blob thread is. */
  lemma AccountedByFlag(s: State, t: State, i: nat)
    requires Coherent(s) && Accounted(s) && t.deliveries == s.deliveries && t.retired == s.retired
    requires i < |s.entries| && s.entries[i].priority
    requires |t.entries| == |s.entries| && forall j :: 0 <= j < |s.entries| && j != i ==> t.entries[j] == s.entries[j]
    requires t.entries[i].id == s.entries[i].id && Due(t.entries[i], t.blob) == Due(s.entries[i], s.blob)
    ensures Accounted(t)
  {
    forall j | 0 <= j < |t.entries| ensures CountFor(t.deliveries, t.entries[j].id) == Due(t.entries[j], t.blob) {
      if j != i {
        assert t.entries[j] == s.entries[j] && !s.entries[j].priority;
      }
    }
  }

  lemma InsertKeepsAccounted(s: State)
    requires Delivered(s) && Accounted(s) && s.dlog.Checked?
    ensures Accounted(InsertedStep(s))
  {
    var t := InsertedStep(s);
    CountNone(s.deliveries, |s.registered|);
    assert forall j :: 0 < j < |t.entries| ==> t.entries[j] == s.entries[j - 1];
  }

  lemma ChooseKeepsAccounted(s: State)
    requires Coherent(s) && Accounted(s) && s.blob == Idle
    ensures Accounted(ChosenStep(s))
  {
    if s.entries != [] {
      if Flagged(s.entries).None? {
        FlagKeepsList(s.entries, |s.registered|);
        var t := Target(s.entries).value;
        assert !s.entries[t].priority && EntryOk(s.entries[t]);
      } else {
        TargetExists(s.entries);
        FlaggedIsTarget(s.entries, |s.registered|, Flagged(s.entries).value.id);
      }
    }
  }

  lemma PointerStepKeepsAccounted(s: State, step: Step)
    requires Coherent(s) && Accounted(s) && Enabled(s, step)
    requires step.NameFails? || step.PutAccepted? || step.PutRefused? || step.LeaveUploading?
    ensures Accounted(Apply(s, step))
  {
    FlaggedIsTarget(s.entries, |s.registered|, s.blob.id);
    AccountedByFlag(s, Apply(s, step), Find(s.entries, s.blob.id));
  }

  lemma MoreDataKeepsAccounted(s: State, len: nat)
    requires Coherent(s) && Accounted(s) && Enabled(s, MoreData(len))
    ensures Accounted(MoreDataStep(s, len))
  {
    FlaggedIsTarget(s.entries, |s.registered|, s.agent.id);
    AccountedByFlag(s, MoreDataStep(s, len), Find(s.entries, s.agent.id));
  }

  lemma FailKeepsAccounted(s: State)
    requires Coherent(s) && Budget(s) && Accounted(s) && AgentHolds(s)
    ensures Accounted(FailedStep(s))
  {
    FlaggedIsTarget(s.entries, |s.registered|, s.agent.id);
    AccountedByFlag(s, FailedStep(s), Find(s.entries, s.agent.id));
  }

  lemma SetKeepsAccounted(s: State)
    requires Coherent(s) && Budget(s) && Accounted(s) && s.blob.Setting?
    ensures Accounted(SetStep(s))
  {
    FlaggedIsTarget(s.entries, |s.registered|, s.blob.about.value);
    var i := Find(s.entries, s.blob.about.value);
    assert FlaggedBudget(s.entries[i], s.agent, s.blob);
    AccountedByFlag(s, SetStep(s), i);
  }

  /** A listed entry has not been retired. */
  lemma ListedIsNotRetired(s: State, i: nat, k: nat)
    requires Partitioned(s) && i < |s.entries| && k < |s.retired|
    ensures s.entries[i].id != s.retired[k].id
  {
    var id, listed, retired := s.entries[i].id, multiset(Ids(s.entries)), multiset(Ids(s.retired));
    assert Ids(s.entries)[i] == id && id in Ids(s.entries);
    assert Ids(s.retired)[k] == s.retired[k].id && s.retired[k].id in Ids(s.retired);
    assert (listed + retired)[id] == UpTo(|s.registered|)[id] <= 1;
  }

  lemma FinishCounts(s: State, i: nat)
    requires Coherent(s) && Partitioned(s) && Accounted(s) && s.blob == Processing
    requires i < |s.entries| && s.entries[i].priority && s.entries[i].status == Uploading
    requires s.entries[i].retries < MAX_RETRY
    ensures var d := Delivery(s.entries[i].id, s.agent.received);
            s.agent.Busy? ==>
              && ListedAsDue(s.entries, Setting(Finished, Some(s.entries[i].id), true), s.deliveries + [d])
              && RetiredAsExpected(s.retired, s.deliveries + [d])
  {
    if s.agent.Busy? {
      var d, blob := Delivery(s.entries[i].id, s.agent.received), Setting(Finished, Some(s.entries[i].id), true);
      forall j | 0 <= j < |s.entries|
        ensures CountFor(s.deliveries + [d], s.entries[j].id) == Due(s.entries[j], blob)
      {
        CountNext(s.deliveries, d, s.entries[j].id);
        if j != i {
          assert s.entries[j].id != s.entries[i].id && !s.entries[j].priority;
        }
      }
      forall k | 0 <= k < |s.retired|
        ensures CountFor(s.deliveries + [d], s.retired[k].id) == CountFor(s.deliveries, s.retired[k].id)
      {
        ListedIsNotRetired(s, i, k);
        CountNext(s.deliveries, d, s.retired[k].id);
      }
    }
  }

  lemma FinishKeepsAccounted(s: State)
    requires Coherent(s) && Budget(s) && Partitioned(s) && Accounted(s) && AgentHolds(s)
    ensures Accounted(FinishedStep(s))
  {
    FlaggedIsTarget(s.entries, |s.registered|, s.agent.id);
    var i := Find(s.entries, s.agent.id);
    assert FlaggedBudget(s.entries[i], s.agent, s.blob);
    FinishCounts(s, i);
  }

  lemma UnregisterKeepsAccounted(s: State)
    requires Coherent(s) && Budget(s) && Accounted(s) && ChosenHas(s, Finished)
    ensures Accounted(UnregisteredStep(s))
  {
    var i, t := Find(s.entries, s.blob.id), UnregisteredStep(s);
    UnregisterRemoves(s);
    assert FlaggedBudget(s.entries[i], s.agent, s.blob);
    forall j | 0 <= j < |t.entries| ensures CountFor(t.deliveries, t.entries[j].id) == Due(t.entries[j], t.blob) {
      var l := if j < i then j else j + 1;
      assert t.entries[j] == s.entries[l] && !s.entries[l].priority;
    }
  }

  lemma BlobMoveKeepsAccounted(s: State, step: Step)
    requires Accounted(s) && (step.CheckRoom? || step.Notify? || step.EnterProcessing? || step.LeaveProcessing?)
    ensures Accounted(Apply(s, step))
  {
  }

  lemma StepKeepsAccounted(s: State, step: Step)
    requires Coherent(s) && Budget(s) && Recorded(s) && Accounted(s) && Enabled(s, step) && !step.ProcessingFails?
    ensures Accounted(Apply(s, step))
  {
    match step
    case Insert => InsertKeepsAccounted(s);
    case Choose => ChooseKeepsAccounted(s);
    case MoreData(len) => MoreDataKeepsAccounted(s, len);
    case UploadFinished => FinishKeepsAccounted(s);
    case UploadFailed => FailKeepsAccounted(s);
    case SetStatus => SetKeepsAccounted(s);
    case Unregister => UnregisterKeepsAccounted(s);
    case NameFails => PointerStepKeepsAccounted(s, step);
    case PutAccepted => PointerStepKeepsAccounted(s, step);
    case PutRefused => PointerStepKeepsAccounted(s, step);
    case LeaveUploading => PointerStepKeepsAccounted(s, step);
    case _ => BlobMoveKeepsAccounted(s, step);
  }

  lemma {:induction false} RunIsAccounted(max: nat, steps: seq<Step>)
    requires !Exec(Start(max), steps).faults
    ensures Accounted(Exec(Start(max), steps))
    decreases |steps|
  {
    if steps != [] {
      var init, step := steps[..|steps| - 1], steps[|steps| - 1];
      var s := Exec(Start(max), init);
      FaultsAreForever(s, step);
      RunIsAccounted(max, init);
      RunIsCoherent(max, init);
      RunKeepsBudget(max, init);
      RunIsRecorded(max, init);
      if Enabled(s, step) {
        StepKeepsAccounted(s, step);
      }
    }
  }

  /** In every run without faults an entry that has left the list was delivered exactly
      once, with a prefix of its log, or all of it if the agent asked for the full
      size; or it has failed three times and was never delivered. */
  lemma {:induction false} RetiredWasDeliveredOrFailed(max: nat, steps: seq<Step>, k: nat)
    requires var s := Exec(Start(max), steps); !s.faults && k < |s.retired|
    ensures var s := Exec(Start(max), steps);
            var r := s.retired[k];
            && r.id < |s.registered| && r.log == s.registered[r.id]
            && r.retries <= MAX_RETRY
            && CountFor(s.deliveries, r.id) == (if r.retries < MAX_RETRY then 1 else 0)
            && forall j :: 0 <= j < |s.deliveries| && s.deliveries[j].id == r.id ==>
                 && s.deliveries[j].bytes <= r.log.data
                 && (|s.deliveries[j].bytes| == |r.log.data| ==> s.deliveries[j].bytes == r.log.data)
  {
    RunIsAccounted(max, steps);
    RunIsRecorded(max, steps);
    UploadsCarryTheLog(max, steps);
  }

  lemma {:induction false} InIds(entries: seq<Entry>, id: nat)
    requires id in Ids(entries)
    ensures exists i :: 0 <= i < |entries| && entries[i].id == id
  {
    var i :| 0 <= i < |Ids(entries)| && Ids(entries)[i] == id;
    assert entries[i].id == id;
  }

  /** In every run without faults no log is delivered twice. */
  lemma {:induction false} NothingIsDeliveredTwice(max: nat, steps: seq<Step>, id: nat)
    requires !Exec(Start(max), steps).faults
    ensures CountFor(Exec(Start(max), steps).deliveries, id) <= 1
  {
    var s := Exec(Start(max), steps);
    RunIsAccounted(max, steps);
    RunIsRecorded(max, steps);
    if id >= |s.registered| {
      CountNone(s.deliveries, id);
    } else {
      EveryEntryOnce(max, steps, id);
      if id in Ids(s.entries) {
        InIds(s.entries, id);
      } else {
        assert id in Ids(s.retired);
        InIds(s.retired, id);
      }
    }
  }

  // ------------------------------------------------------- with a fault it is not so

  /** A run of fifteen steps: the processing fails just after the upload has finished,
      and the entry goes back to a request. */
  function TwiceRun(log: Log, k: nat): seq<Step> {
    if k == 0 then [] else TwiceRun(log, k - 1) + TwicePart(log, k - 1)
  }

  function TwicePart(log: Log, k: nat): seq<Step> {
    match k
    case 0 => [CheckRoom(log), Insert, Choose]
    case 1 => [PutAccepted, SetStatus, EnterProcessing]
    case 2 => [UploadFinished, SetStatus, ProcessingFails]
    case 3 => [SetStatus, Choose, PutAccepted]
    case _ => [SetStatus, EnterProcessing, UploadFinished]
  }

  /** The state after `k` parts. */
  function TwiceState(log: Log, k: nat): State {
    var chosen := NewEntry(0, log).(priority := true);
    var s := Start(1).(registered := [log]);
    var busy := Busy(0, |log.data|, []);
    match k
    case 0 => Start(1)
    case 1 => s.(entries := [chosen], blob := Chosen(0))
    case 2 => s.(entries := [chosen.(status := Uploading, puts := 1)], agent := busy, blob := Processing)
    case 3 =>
      s.(entries := [chosen.(status := Finished, puts := 1)], blob := Setting(Request, None, false),
         deliveries := [Delivery(0, [])], faults := true)
    case 4 =>
      s.(entries := [chosen.(puts := 2)], agent := busy, blob := Setting(Uploading, Some(0), false),
         deliveries := [Delivery(0, [])], faults := true)
    case _ =>
      s.(entries := [chosen.(status := Uploading, puts := 2)], blob := Setting(Finished, Some(0), true),
         deliveries := [Delivery(0, []), Delivery(0, [])], faults := true)
  }

  lemma ExecThree(s: State, a: Step, b: Step, c: Step)
    ensures Exec(s, [a, b, c]) == Apply(Apply(Apply(s, a), b), c)
  {
    ExecSnoc(s, [], a);
    ExecSnoc(s, [a], b);
    ExecSnoc(s, [a, b], c);
    assert [] + [a] == [a] && [a] + [b] == [a, b] && [a, b] + [c] == [a, b, c];
  }

  lemma OneEntry(e: Entry)
    ensures Target([e]) == Some(0) && Find([e], e.id) == 0
  {
    assert [e][..0] == [];
  }

  lemma OneChosen(s: State, e: Entry)
    requires s.entries == [e] && s.blob == Idle && !e.priority
    ensures Apply(s, Choose) == s.(entries := [e.(priority := true)], blob := Chosen(e.id))
  {
    OneEntry(e);
    assert Oldest([e], 0).None? by { assert [e][..0] == []; }
    assert WithFlag([e]) == [e.(priority := true)];
  }

  lemma OnePut(s: State, e: Entry)
    requires s.entries == [e] && s.blob == Chosen(e.id) && e.status == Request
    ensures Apply(s, PutAccepted)
         == s.(entries := [e.(puts := e.puts + 1)], agent := Busy(e.id, |e.log.data|, []),
               blob := Setting(Uploading, Some(e.id), false))
  {
    OneEntry(e);
  }

  lemma OneSet(s: State, e: Entry)
    requires s.entries == [e] && s.blob.Setting?
    ensures Apply(s, SetStatus)
         == s.(entries := [if s.blob.status == Request then e.(status := Request, done := 0, priority := false)
                           else e.(status := s.blob.status)],
               blob := if s.blob.processing then Processing else Idle)
  {
    OneEntry(e);
  }

  lemma OneFinished(s: State, e: Entry)
    requires s.entries == [e] && s.blob == Processing && s.agent.Busy? && s.agent.id == e.id
    ensures Apply(s, UploadFinished)
         == s.(agent := Quiet, deliveries := s.deliveries + [Delivery(e.id, s.agent.received)],
               blob := Setting(Finished, Some(e.id), true))
  {
    OneEntry(e);
  }

  lemma TwiceInserted(log: Log)
    ensures var p := TwicePart(log, 0);
            Apply(Apply(Apply(TwiceState(log, 0), p[0]), p[1]), p[2]) == TwiceState(log, 1)
  {
    var e := NewEntry(0, log);
    var s := Start(1).(entries := [e], registered := [log]);
    assert Apply(Apply(Start(1), CheckRoom(log)), Insert) == s;
    OneChosen(s, e);
  }

  lemma TwicePut(log: Log)
    ensures var p := TwicePart(log, 1);
            Apply(Apply(Apply(TwiceState(log, 1), p[0]), p[1]), p[2]) == TwiceState(log, 2)
  {
    var s := TwiceState(log, 1);
    OnePut(s, s.entries[0]);
    var t := Apply(s, PutAccepted);
    OneSet(t, t.entries[0]);
  }

  lemma TwiceFailed(log: Log)
    ensures var p := TwicePart(log, 2);
            Apply(Apply(Apply(TwiceState(log, 2), p[0]), p[1]), p[2]) == TwiceState(log, 3)
  {
    var s := TwiceState(log, 2);
    OneFinished(s, s.entries[0]);
    var t := Apply(s, UploadFinished);
    OneSet(t, t.entries[0]);
  }

  lemma TwicePutAgain(log: Log)
    ensures var p := TwicePart(log, 3);
            Apply(Apply(Apply(TwiceState(log, 3), p[0]), p[1]), p[2]) == TwiceState(log, 4)
  {
    var s := TwiceState(log, 3);
    OneSet(s, s.entries[0]);
    var t := Apply(s, SetStatus);
    OneChosen(t, t.entries[0]);
    var u := Apply(t, Choose);
    OnePut(u, u.entries[0]);
  }

  lemma TwiceFinished(log: Log)
    ensures var p := TwicePart(log, 4);
            Apply(Apply(Apply(TwiceState(log, 4), p[0]), p[1]), p[2]) == TwiceState(log, 5)
  {
    var s := TwiceState(log, 4);
    OneSet(s, s.entries[0]);
    var t := Apply(Apply(s, SetStatus), EnterProcessing);
    OneFinished(t, t.entries[0]);
  }

  lemma TwicePartLeads(log: Log, k: nat)
    requires k < 5
    ensures Exec(TwiceState(log, k), TwicePart(log, k)) == TwiceState(log, k + 1)
  {
    var p := TwicePart(log, k);
    ExecThree(TwiceState(log, k), p[0], p[1], p[2]);
    match k
    case 0 => TwiceInserted(log);
    case 1 => TwicePut(log);
    case 2 => TwiceFailed(log);
    case 3 => TwicePutAgain(log);
    case _ => TwiceFinished(log);
  }

  lemma {:induction false} TwiceStates(log: Log, k: nat)
    requires k <= 5
    ensures Exec(Start(1), TwiceRun(log, k)) == TwiceState(log, k)
  {
    if k != 0 {
      TwiceStates(log, k - 1);
      ExecConcat(Start(1), TwiceRun(log, k - 1), TwicePart(log, k - 1));
      TwicePartLeads(log, k - 1);
    }
  }

  lemma TwiceEnds(log: Log)
    ensures var s := TwiceState(log, 5); s.registered == [log] && CountFor(s.deliveries, 0) == 2
  {
    var d := Delivery(0, []);
    CountNext([], d, 0);
    CountNext([d], d, 0);
    assert [] + [d] == [d] && [d] + [d] == [d, d];
  }

  /** The restriction is needed: with one failed `SYS_process_event` a log is delivered
      twice. */
  lemma SomeLogIsDeliveredTwice(log: Log)
    ensures var s := Exec(Start(1), TwiceRun(log, 5)); s.registered == [log] && CountFor(s.deliveries, 0) == 2
  {
    TwiceStates(log, 5);
    TwiceEnds(log);
  }
}

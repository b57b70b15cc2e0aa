/**
 What the upload scheduler guarantees over every run: one upload in flight, the
 right bytes delivered, every entry accounted for, and a drain bound.
 */
module UploadProperties {
  import opened Common
  import opened UploadList
  import opened UploadScheduler

  // ------------------------------------------------------ one upload in flight

  /** `id` is in the list, flagged, and what every operation would pick. */
  ghost predicate IsTarget(entries: seq<Entry>, id: nat) {
    var i := Find(entries, id);
    i < |entries| && entries[i].priority && Target(entries) == Some(i)
  }

  ghost predicate OneInFlight(s: State) {
    && (forall i, j :: 0 <= i < j < |s.entries| ==> !(s.entries[i].priority && s.entries[j].priority))
    && (forall i :: 0 <= i < |s.entries| && !s.entries[i].priority ==>
          s.entries[i].status == Request && s.entries[i].done == 0)
    && (s.agent.Busy? ==> IsTarget(s.entries, s.agent.id))
    && (s.blob.Chosen? ==> IsTarget(s.entries, s.blob.id))
    && (s.blob.Setting? && s.blob.about.Some? ==> IsTarget(s.entries, s.blob.about.value))
  }

  lemma CoherentMeansOneInFlight(s: State)
    requires Coherent(s)
    ensures OneInFlight(s)
  {
    forall i | 0 <= i < |s.entries| ensures EntryOk(s.entries[i]) {}
    if s.agent.Busy? {
      FlaggedIsTarget(s.entries, |s.registered|, s.agent.id);
    }
    if s.blob.Chosen? {
      FlaggedIsTarget(s.entries, |s.registered|, s.blob.id);
    }
    if s.blob.Setting? && s.blob.about.Some? {
      FlaggedIsTarget(s.entries, |s.registered|, s.blob.about.value);
    }
  }

  /** In every run with insertions at any point: at most one entry is flagged, the
      others wait untouched, and whatever entry the agent works on or the blob
      thread means is the one the scan finds, so a later critical log never takes
      over a running upload. */
  lemma {:induction false} AtMostOneInFlight(max: nat, steps: seq<Step>)
    ensures OneInFlight(Exec(Start(max), steps))
  {
    RunIsCoherent(max, steps);
    CoherentMeansOneInFlight(Exec(Start(max), steps));
  }

  /** The agent is never handed a second upload while one is running, and never
      reads beyond an entry's data. */
  lemma AgentIsServedInOrder(max: nat, steps: seq<Step>, len: nat)
    ensures var s := Exec(Start(max), steps);
            && (Enabled(s, PutAccepted) ==> s.agent == Quiet)
            && (Enabled(s, MoreData(len)) ==>
                 var e := s.entries[Find(s.entries, s.agent.id)];
                 e.done + len <= |e.log.data|)
  {
    var s := Exec(Start(max), steps);
    RunIsCoherent(max, steps);
    if Enabled(s, PutAccepted) {
      PointerIsFlagged(s);
    }
    if Enabled(s, MoreData(len)) {
      AgentAsksWithinBounds(s, len);
    }
  }

  // ------------------------------------------------------------ who is served next

  /** The entry an idle blob thread takes: the flagged one if there is one; else, if
      any critical log waits, the critical one registered first; else the one
      registered first. */
  ghost predicate IsNext(entries: seq<Entry>, i: nat)
    requires i < |entries|
  {
    var e := entries[i];
    if exists j :: 0 <= j < |entries| && entries[j].priority then e.priority
    else if exists j :: 0 <= j < |entries| && entries[j].log.critical then
      e.log.critical && forall j :: 0 <= j < |entries| && entries[j].log.critical ==> e.id <= entries[j].id
    else forall j :: 0 <= j < |entries| ==> e.id <= entries[j].id
  }

  lemma TargetIsNext(entries: seq<Entry>, bound: nat, i: nat)
    requires Ordered(entries, bound) && i < |entries| && Target(entries) == Some(i)
    ensures IsNext(entries, i)
  {
    TargetByFields(entries, i);
  }

  /** In every run: what is chosen, flagged and nothing else changed. */
  lemma {:induction false} CriticalIsServedFirst(max: nat, steps: seq<Step>)
    requires Exec(Start(max), steps).blob == Idle && Exec(Start(max), steps).entries != []
    ensures var s, t := Exec(Start(max), steps), Exec(Start(max), steps + [Choose]);
            exists i :: 0 <= i < |s.entries| && IsNext(s.entries, i)
                        && t == s.(entries := s.entries[i := s.entries[i].(priority := true)],
                                   blob := Chosen(s.entries[i].id))
  {
    var s := Exec(Start(max), steps);
    RunIsCoherent(max, steps);
    assert (steps + [Choose])[..|steps|] == steps;
    ChooseTakesNext(s);
  }

  lemma ChooseTakesNext(s: State)
    requires Coherent(s) && s.blob == Idle && s.entries != []
    ensures exists i :: 0 <= i < |s.entries| && IsNext(s.entries, i)
                        && Apply(s, Choose) == s.(entries := s.entries[i := s.entries[i].(priority := true)],
                                                  blob := Chosen(s.entries[i].id))
  {
    TargetExists(s.entries);
    var i := Target(s.entries).value;
    TargetIsNext(s.entries, |s.registered|, i);
    if Oldest(s.entries, 0).Some? {
      assert s.entries[i].priority;
      assert s.entries[i := s.entries[i].(priority := true)] == s.entries;
    }
  }

  // ------------------------------------------------------------- how a put goes on

  /** What setting a status makes of an entry: a request gives up flag and progress. */
  function WithEntryStatus(e: Entry, status: UploadStatus): Entry {
    Entry(e.id, e.log, if status == Request then 0 else e.done, status, status != Request && e.priority,
          e.retries, e.puts)
  }

  lemma StatusIsSet(s: State, i: nat)
    requires Coherent(s) && s.blob.Setting? && i < |s.entries| && s.entries[i].priority
    ensures Apply(s, SetStatus)
         == s.(entries := s.entries[i := WithEntryStatus(s.entries[i], s.blob.status)],
               blob := if s.blob.processing then Processing else Idle)
  {
    var f := Oldest(s.entries, 0).value;
    assert s.entries[f].priority;
    assert f == i;
  }

  lemma PointerIsFirst(s: State, id: nat)
    requires Coherent(s) && Flagged(s.entries).Some? && Flagged(s.entries).value.id == id
    ensures var i := Find(s.entries, id); i < |s.entries| && s.entries[i].priority
  {
    FlaggedIsTarget(s.entries, |s.registered|, id);
  }

  lemma ExecTwo(max: nat, steps: seq<Step>, a: Step, b: Step)
    ensures Exec(Start(max), steps + [a] + [b]) == Apply(Apply(Exec(Start(max), steps), a), b)
  {
    assert (steps + [a])[..|steps|] == steps;
    assert (steps + [a] + [b])[..|steps + [a]|] == steps + [a];
  }

  /** A refused put, in every run: the entry is a request again and not flagged, so a
      critical log registered later can come first. */
  lemma {:induction false} RefusedPutGivesUpFlag(max: nat, steps: seq<Step>)
    requires ChosenHas(Exec(Start(max), steps), Request)
    ensures var s, t := Exec(Start(max), steps), Exec(Start(max), steps + [PutRefused] + [SetStatus]);
            var i := Find(s.entries, s.blob.id);
            t == s.(entries := s.entries[i := s.entries[i].(done := 0, priority := false)], blob := Idle)
  {
    var s := Exec(Start(max), steps);
    RunIsCoherent(max, steps);
    PointerIsFlagged(s);
    PointerIsFirst(s, s.blob.id);
    StepKeepsCoherent(s, PutRefused);
    StatusIsSet(Apply(s, PutRefused), Find(s.entries, s.blob.id));
    ExecTwo(max, steps, PutRefused, SetStatus);
  }

  /** An accepted put: the agent has the whole size to ask for, and the entry is being
      uploaded. */
  lemma {:induction false} AcceptedPutUploads(max: nat, steps: seq<Step>)
    requires ChosenHas(Exec(Start(max), steps), Request)
    ensures var s, t := Exec(Start(max), steps), Exec(Start(max), steps + [PutAccepted] + [SetStatus]);
            var i := Find(s.entries, s.blob.id);
            var e := s.entries[i];
            t == s.(entries := s.entries[i := e.(status := Uploading, puts := e.puts + 1)],
                    agent := Busy(e.id, |e.log.data|, []), blob := Idle)
  {
    var s := Exec(Start(max), steps);
    RunIsCoherent(max, steps);
    PointerIsFlagged(s);
    PointerIsFirst(s, s.blob.id);
    StepKeepsCoherent(s, PutAccepted);
    StatusIsSet(Apply(s, PutAccepted), Find(s.entries, s.blob.id));
    ExecTwo(max, steps, PutAccepted, SetStatus);
  }

  /** A failed upload: one retry more, and a request again unless it was the third. */
  lemma {:induction false} FailedUploadGoesBack(max: nat, steps: seq<Step>)
    requires AgentHolds(Exec(Start(max), steps))
    ensures var s, t := Exec(Start(max), steps), Exec(Start(max), steps + [UploadFailed] + [SetStatus]);
            var i := Find(s.entries, s.agent.id);
            var e := s.entries[i];
            var again := e.retries + 1 < MAX_RETRY;
            t == s.(entries := s.entries[i := e.(retries := e.retries + 1,
                                                 status := if again then Request else Finished,
                                                 done := if again then 0 else e.done,
                                                 priority := !again)],
                    agent := Quiet, blob := Processing)
  {
    var s := Exec(Start(max), steps);
    RunIsCoherent(max, steps);
    PointerIsFirst(s, s.agent.id);
    StepKeepsCoherent(s, UploadFailed);
    StatusIsSet(Apply(s, UploadFailed), Find(s.entries, s.agent.id));
    ExecTwo(max, steps, UploadFailed, SetStatus);
  }

  lemma SettingWithoutFlag(s: State, i: nat)
    requires Coherent(s) && s.blob == Setting(Request, None, false) && i < |s.entries|
    requires Flagged(s.entries).None?
    ensures Apply(s, SetStatus).entries == s.entries
  {
    var t := Target(s.entries);
    assert forall j :: 0 <= j < |s.entries| ==> EntryOk(s.entries[j]) && !s.entries[j].priority;
    if t.Some? {
      assert s.entries[t.value := s.entries[t.value].(done := 0, status := Request, priority := false)] == s.entries;
    }
  }

  /** A failed SYS_process_event, in every run: the agent's upload is forgotten, and the
      flagged entry, finished or not, is a request from the start again. */
  lemma {:induction false} FaultGoesBack(max: nat, steps: seq<Step>, i: nat)
    requires Exec(Start(max), steps).blob == Processing && i < |Exec(Start(max), steps).entries|
    ensures var s, t := Exec(Start(max), steps), Exec(Start(max), steps + [ProcessingFails] + [SetStatus]);
            && t.agent == Quiet && t.blob == Idle && t.faults && |t.entries| == |s.entries|
            && t.entries[i] == if s.entries[i].priority
                               then s.entries[i].(done := 0, status := Request, priority := false)
                               else s.entries[i]
  {
    var s := Exec(Start(max), steps);
    RunIsCoherent(max, steps);
    StepKeepsCoherent(s, ProcessingFails);
    ExecTwo(max, steps, ProcessingFails, SetStatus);
    match Oldest(s.entries, 0) {
      case Some(f) => StatusIsSet(Apply(s, ProcessingFails), f);
      case None => SettingWithoutFlag(Apply(s, ProcessingFails), i);
    }
  }

  // ---------------------------------------------------------- every entry once

  function Ids(entries: seq<Entry>): (r: seq<nat>)
    ensures |r| == |entries| && forall i :: 0 <= i < |r| ==> r[i] == entries[i].id
  {
    seq(|entries|, i requires 0 <= i < |entries| => entries[i].id)
  }

  /** 0, 1, ..., n - 1, each once. */
  function UpTo(n: nat): (r: multiset<nat>)
    ensures forall k: nat :: r[k] == if k < n then 1 else 0
  {
    if n == 0 then multiset{} else UpTo(n - 1) + multiset{n - 1}
  }

  /** The callbacks due for retired entries, in order of retirement. */
  function CallsOf(retired: seq<Entry>): seq<Call> {
    if retired == [] then []
    else
      var e := retired[|retired| - 1];
      CallsOf(retired[..|retired| - 1])
      + match e.log.callback
        case Some(callback) => [Call(callback, |e.log.data|, e.log.userData)]
        case None => []
  }

  /** The retired entries whose buffer the list has to free. */
  function FreesOf(retired: seq<Entry>): seq<nat> {
    if retired == [] then []
    else
      var e := retired[|retired| - 1];
      FreesOf(retired[..|retired| - 1]) + if e.log.callback.None? then [e.id] else []
  }

  ghost predicate FromRegistered(entries: seq<Entry>, registered: seq<Log>) {
    forall i :: 0 <= i < |entries| ==>
      entries[i].id < |registered| && entries[i].log == registered[entries[i].id]
  }

  /** Entries of one class retire in the order of their registration. */
  ghost predicate InOrder(retired: seq<Entry>, listed: seq<Entry>) {
    && (forall i, j :: 0 <= i < j < |retired| && retired[i].log.critical == retired[j].log.critical ==>
          retired[i].id < retired[j].id)
    && (forall i, j :: 0 <= i < |retired| && 0 <= j < |listed|
                       && retired[i].log.critical == listed[j].log.critical ==>
          retired[i].id < listed[j].id)
  }

  /** Registered entries are listed or retired, each exactly once. */
  ghost predicate Partitioned(s: State) {
    multiset(Ids(s.entries)) + multiset(Ids(s.retired)) == UpTo(|s.registered|)
  }

  /** Every retired entry has had its callback called once, with its own size and
      user data (one call may be just about to happen), or its buffer freed once. */
  ghost predicate Released(s: State) {
    && CallsOf(s.retired) == s.calls + (if s.blob.Notifying? then [s.blob.call] else [])
    && FreesOf(s.retired) == s.frees
  }

  ghost predicate Bounded(s: State) {
    |s.entries| <= s.max && (s.dlog.Checked? ==> |s.entries| < s.max)
  }

  ghost predicate Delivered(s: State) {
    forall k :: 0 <= k < |s.deliveries| ==>
      var d := s.deliveries[k];
      d.id < |s.registered| && d.bytes <= s.registered[d.id].data
  }

  ghost predicate Recorded(s: State) {
    && FromRegistered(s.entries, s.registered) && FromRegistered(s.retired, s.registered)
    && Partitioned(s) && InOrder(s.retired, s.entries)
    && Released(s) && Bounded(s) && Delivered(s)
  }

  /** The same entries, in the same order, in whatever state. */
  ghost predicate SameEntries(a: seq<Entry>, b: seq<Entry>) {
    |a| == |b| && forall i :: 0 <= i < |a| ==> a[i].id == b[i].id && a[i].log == b[i].log
  }

  lemma OtherStepsKeepHistory(s: State, step: Step)
    requires !step.Insert? && !step.Unregister?
    ensures var t := Apply(s, step);
            t.registered == s.registered && t.retired == s.retired && t.frees == s.frees && t.max == s.max
  {
  }

  lemma OtherStepsKeepEntries(s: State, step: Step)
    requires !step.Insert? && !step.Unregister?
    ensures var t := Apply(s, step);
            && SameEntries(s.entries, t.entries)
            && t.registered == s.registered && t.retired == s.retired && t.frees == s.frees && t.max == s.max
  {
    OtherStepsKeepHistory(s, step);
    if Enabled(s, step) {
      OtherStepKeepsList(s, step);
    }
  }

  lemma OtherStepKeepsList(s: State, step: Step)
    requires !step.Insert? && !step.Unregister? && Enabled(s, step)
    ensures SameEntries(s.entries, Apply(s, step).entries)
  {
  }

  lemma SameEntriesSameRecords(s: State, t: State)
    requires Recorded(s) && SameEntries(s.entries, t.entries)
    requires t.registered == s.registered && t.retired == s.retired
    ensures FromRegistered(t.entries, t.registered) && Partitioned(t) && InOrder(t.retired, t.entries)
  {
    assert Ids(t.entries) == Ids(s.entries);
  }

  lemma FinishDelivers(s: State)
    requires Coherent(s) && FromRegistered(s.entries, s.registered) && Delivered(s) && AgentHolds(s)
    ensures Delivered(FinishedStep(s))
  {
    FlaggedIsTarget(s.entries, |s.registered|, s.agent.id);
    var e := s.entries[Find(s.entries, s.agent.id)];
    assert e.id < |s.registered| && e.log == s.registered[e.id];
    assert s.agent.received == e.log.data[..e.done];
  }

  lemma OtherStepKeepsReleased(s: State, step: Step)
    requires Released(s) && Bounded(s) && !step.Insert? && !step.Unregister?
    ensures Released(Apply(s, step)) && Bounded(Apply(s, step))
  {
  }

  lemma OtherStepKeepsDelivered(s: State, step: Step)
    requires Coherent(s) && FromRegistered(s.entries, s.registered) && Delivered(s)
    requires !step.Insert? && !step.Unregister?
    ensures Delivered(Apply(s, step))
  {
    OtherStepsKeepEntries(s, step);
    if step.UploadFinished? && AgentHolds(s) {
      FinishDelivers(s);
    } else {
      assert Apply(s, step).deliveries == s.deliveries;
    }
  }

  lemma OtherStepKeepsRecords(s: State, step: Step)
    requires Coherent(s) && Recorded(s) && !step.Insert? && !step.Unregister?
    ensures Recorded(Apply(s, step))
  {
    OtherStepsKeepEntries(s, step);
    SameEntriesSameRecords(s, Apply(s, step));
    OtherStepKeepsReleased(s, step);
    OtherStepKeepsDelivered(s, step);
    assert FromRegistered(s.retired, s.registered);
  }

  lemma InsertKeepsOrder(s: State)
    requires Coherent(s) && FromRegistered(s.retired, s.registered) && InOrder(s.retired, s.entries)
    requires s.dlog.Checked?
    ensures InOrder(s.retired, InsertedStep(s).entries)
  {
    var t := InsertedStep(s);
    assert forall j :: 0 < j < |t.entries| ==> t.entries[j] == s.entries[j - 1];
  }

  lemma InsertKeepsLogs(s: State)
    requires FromRegistered(s.entries, s.registered) && FromRegistered(s.retired, s.registered) && s.dlog.Checked?
    ensures var t := InsertedStep(s); FromRegistered(t.entries, t.registered) && FromRegistered(t.retired, t.registered)
  {
    var t := InsertedStep(s);
    assert forall j :: 0 < j < |t.entries| ==> t.entries[j] == s.entries[j - 1];
  }

  lemma InsertKeepsPartition(s: State)
    requires Partitioned(s) && s.dlog.Checked?
    ensures Partitioned(InsertedStep(s))
  {
    assert Ids(InsertedStep(s).entries) == [|s.registered|] + Ids(s.entries);
  }

  lemma InsertKeepsRecords(s: State)
    requires Coherent(s) && Recorded(s) && s.dlog.Checked?
    ensures Recorded(InsertedStep(s))
  {
    InsertKeepsPartition(s);
    InsertKeepsOrder(s);
    InsertKeepsLogs(s);
  }

  lemma RemovalSplits(entries: seq<Entry>, i: nat)
    requires i < |entries|
    ensures multiset(Ids(entries)) == multiset(Ids(Without(entries, i))) + multiset{entries[i].id}
  {
    var ids := Ids(entries);
    assert Ids(Without(entries, i)) == ids[..i] + ids[i + 1..];
    assert ids == ids[..i] + [ids[i]] + ids[i + 1..];
  }

  lemma RetireKeepsPartition(s: State, i: nat)
    requires Partitioned(s) && i < |s.entries|
    ensures multiset(Ids(Without(s.entries, i))) + multiset(Ids(s.retired + [s.entries[i]])) == UpTo(|s.registered|)
  {
    RemovalSplits(s.entries, i);
    assert Ids(s.retired + [s.entries[i]]) == Ids(s.retired) + [s.entries[i].id];
  }

  lemma RetireKeepsOrder(s: State, i: nat)
    requires Coherent(s) && InOrder(s.retired, s.entries) && i < |s.entries| && s.entries[i].priority
    ensures InOrder(s.retired + [s.entries[i]], Without(s.entries, i))
  {
    var rest := Without(s.entries, i);
    assert forall j :: 0 <= j < |rest| ==> rest[j] == s.entries[if j < i then j else j + 1];
  }

  lemma RetireKeepsReleased(s: State, e: Entry)
    requires Released(s) && !s.blob.Notifying?
    ensures FreesOf(s.retired + [e]) == s.frees + (if e.log.callback.None? then [e.id] else [])
    ensures CallsOf(s.retired + [e]) == s.calls + match e.log.callback
                                                  case Some(callback) => [Call(callback, |e.log.data|, e.log.userData)]
                                                  case None => []
  {
    assert (s.retired + [e])[..|s.retired|] == s.retired;
  }

  lemma RetireKeepsLogs(s: State, i: nat)
    requires FromRegistered(s.entries, s.registered) && FromRegistered(s.retired, s.registered) && i < |s.entries|
    ensures FromRegistered(Without(s.entries, i), s.registered)
    ensures FromRegistered(s.retired + [s.entries[i]], s.registered)
  {
    var rest := Without(s.entries, i);
    assert forall j :: 0 <= j < |rest| ==> rest[j] == s.entries[if j < i then j else j + 1];
  }

  lemma UnregisterRemoves(s: State)
    requires Coherent(s) && ChosenHas(s, Finished)
    ensures var i, t := Find(s.entries, s.blob.id), UnregisteredStep(s);
            && s.entries[i].priority
            && t == s.(entries := Without(s.entries, i), retired := s.retired + [s.entries[i]],
                       blob := t.blob, frees := t.frees)
  {
    FlaggedIsTarget(s.entries, |s.registered|, s.blob.id);
  }

  lemma UnregisterReleases(s: State)
    requires Coherent(s) && Released(s) && ChosenHas(s, Finished)
    ensures Released(UnregisteredStep(s))
  {
    FlaggedIsTarget(s.entries, |s.registered|, s.blob.id);
    RetireKeepsReleased(s, s.entries[Find(s.entries, s.blob.id)]);
  }

  lemma UnregisterKeepsRecords(s: State)
    requires Coherent(s) && Recorded(s) && ChosenHas(s, Finished)
    ensures Recorded(UnregisteredStep(s))
  {
    var i := Find(s.entries, s.blob.id);
    UnregisterRemoves(s);
    UnregisterReleases(s);
    RetireKeepsPartition(s, i);
    RetireKeepsOrder(s, i);
    RetireKeepsLogs(s, i);
  }

  lemma {:induction false} RunIsRecorded(max: nat, steps: seq<Step>)
    ensures Recorded(Exec(Start(max), steps))
    decreases |steps|
  {
    if steps != [] {
      var s, step := Exec(Start(max), steps[..|steps| - 1]), steps[|steps| - 1];
      RunIsRecorded(max, steps[..|steps| - 1]);
      RunIsCoherent(max, steps[..|steps| - 1]);
      if !Enabled(s, step) {
      } else if step.Insert? {
        InsertKeepsRecords(s);
      } else if step.Unregister? {
        UnregisterKeepsRecords(s);
      } else {
        OtherStepKeepsRecords(s, step);
      }
    }
  }

  /** In every run the list stays within its maximum, though the check and the
      insertion are separate locked steps, and registered entries are listed or
      retired, each exactly once. */
  lemma {:induction false} EveryEntryOnce(max: nat, steps: seq<Step>, id: nat)
    ensures var s := Exec(Start(max), steps);
            && |s.entries| <= max
            && (id < |s.registered| ==> multiset(Ids(s.entries))[id] + multiset(Ids(s.retired))[id] == 1)
            && |s.registered| == |s.entries| + |s.retired|
  {
    var s := Exec(Start(max), steps);
    RunIsRecorded(max, steps);
    MaximumIsFixed(max, steps);
    UpToCounts(|s.registered|);
    assert (multiset(Ids(s.entries)) + multiset(Ids(s.retired)))[id] == UpTo(|s.registered|)[id];
    assert |multiset(Ids(s.entries)) + multiset(Ids(s.retired))| == |s.entries| + |s.retired|;
  }

  lemma {:induction false} UpToCounts(n: nat)
    ensures |UpTo(n)| == n
  {
    if n != 0 {
      UpToCounts(n - 1);
    }
  }

  lemma StepKeepsMaximum(s: State, step: Step)
    ensures Apply(s, step).max == s.max
  {
  }

  lemma {:induction false} MaximumIsFixed(max: nat, steps: seq<Step>)
    ensures Exec(Start(max), steps).max == max
    decreases |steps|
  {
    if steps != [] {
      MaximumIsFixed(max, steps[..|steps| - 1]);
      StepKeepsMaximum(Exec(Start(max), steps[..|steps| - 1]), steps[|steps| - 1]);
    }
  }

  /** In every run, faults included, entries of one class retire in the order of
      their registration, even after a retry has given up the flag. */
  lemma {:induction false} RetiredInOrder(max: nat, steps: seq<Step>)
    ensures var s := Exec(Start(max), steps); InOrder(s.retired, s.entries) && Released(s)
  {
    RunIsRecorded(max, steps);
  }

  /** What the agent holds is always the first bytes of the log it was asked to
      upload, across retries; what it reports finished is a prefix of the log, and
      the whole log if it asked for the full size. */
  ghost predicate RightBytes(s: State)
    requires s.agent.Busy? ==> Find(s.entries, s.agent.id) < |s.entries|
  {
    && (s.agent.Busy? ==>
         && s.agent.id < |s.registered| && s.agent.received <= s.registered[s.agent.id].data
         && s.agent.size == |s.registered[s.agent.id].data|
         && |s.agent.received| == s.entries[Find(s.entries, s.agent.id)].done)
    && forall k :: 0 <= k < |s.deliveries| ==>
         var d := s.deliveries[k];
         && d.id < |s.registered| && d.bytes <= s.registered[d.id].data
         && (|d.bytes| == |s.registered[d.id].data| ==> d.bytes == s.registered[d.id].data)
  }

  lemma RecordsGiveRightBytes(s: State)
    requires Coherent(s) && Recorded(s) && (s.agent.Busy? ==> IsTarget(s.entries, s.agent.id))
    ensures s.agent.Busy? ==> Find(s.entries, s.agent.id) < |s.entries|
    ensures RightBytes(s)
  {
    if s.agent.Busy? {
      FlaggedIsTarget(s.entries, |s.registered|, s.agent.id);
    }
  }

  lemma {:induction false} UploadsCarryTheLog(max: nat, steps: seq<Step>)
    ensures var s := Exec(Start(max), steps); s.agent.Busy? ==> IsTarget(s.entries, s.agent.id)
    ensures RightBytes(Exec(Start(max), steps))
  {
    RunIsCoherent(max, steps);
    RunIsRecorded(max, steps);
    AtMostOneInFlight(max, steps);
    RecordsGiveRightBytes(Exec(Start(max), steps));
  }
}

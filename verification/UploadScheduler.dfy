/**
 The upload scheduler of one list as an interleaved transition system.

 The DLOG thread checks the length of the list and inserts in two separate locked
 steps.  The blob thread chooses an entry, puts it to the EVP agent, and inside
 `SYS_process_event` runs the agent's callbacks; it changes an entry's status in
 a locked step of its own, so insertions can come between any two of its steps.
 Work on the other list is, for this one, the blob thread being idle.
 */
module UploadScheduler {
  import opened Common
  import opened UploadList

  /** The agent accepts one upload at a time and counts what it has received of
      the size it was told. */
  datatype Agent = Quiet | Busy(id: nat, size: nat, received: seq<Byte>)

  datatype Dlog = Waiting | Checked(log: Log)

  /** A completion callback with its arguments. */
  datatype Call = Call(callback: nat, size: nat, userData: int)

  /** Where the blob thread is.  `about` is the entry it means when it sets a
      status; the code passes no such argument. */
  datatype Blob =
    | Idle
    | Chosen(id: nat)
    | Setting(status: UploadStatus, about: Option<nat>, processing: bool)
    | Notifying(call: Call)
    | Processing

  datatype Delivery = Delivery(id: nat, bytes: seq<Byte>)

  datatype State = State(
    max: nat,
    entries: seq<Entry>,
    dlog: Dlog,
    blob: Blob,
    agent: Agent,
    // history
    registered: seq<Log>,
    refused: seq<Log>,           // dropped by the length check
    retired: seq<Entry>,
    calls: seq<Call>,
    frees: seq<nat>,
    deliveries: seq<Delivery>,   // uploads the agent reported finished
    faults: bool)                // SYS_process_event has failed

  datatype Step =
    | CheckRoom(log: Log)
    | Insert
    | Choose
    | NameFails
    | PutAccepted
    | PutRefused
    | LeaveUploading
    | Unregister
    | Notify
    | EnterProcessing
    | MoreData(len: nat)
    | UploadFinished
    | UploadFailed
    | SetStatus
    | LeaveProcessing
    | ProcessingFails

  function Start(max: nat): State {
    State(max, [], Waiting, Idle, Quiet, [], [], [], [], [], [], false)
  }

  /** Follows a pointer to an entry; the length of the list if it dangles. */
  function Find(entries: seq<Entry>, id: nat): (r: nat)
    ensures r <= |entries|
    ensures r < |entries| ==> entries[r].id == id
    ensures forall j :: 0 <= j < r ==> entries[j].id != id
  {
    if entries == [] || entries[0].id == id then 0 else 1 + Find(entries[1..], id)
  }

  /** What a copy of `len` bytes from offset `from` yields; short when it runs
      over the end. */
  function Chunk(data: seq<Byte>, from: nat, len: nat): seq<Byte> {
    if from + len <= |data| then data[from..from + len]
    else if from <= |data| then data[from..]
    else []
  }

  predicate ChosenHas(s: State, status: UploadStatus) {
    s.blob.Chosen? && Find(s.entries, s.blob.id) < |s.entries|
    && s.entries[Find(s.entries, s.blob.id)].status == status
  }

  predicate AgentHolds(s: State) {
    s.blob == Processing && s.agent.Busy? && Find(s.entries, s.agent.id) < |s.entries|
  }

  predicate Enabled(s: State, step: Step) {
    match step
    case CheckRoom(_) => s.dlog == Waiting
    case Insert => s.dlog.Checked?
    case Choose => s.blob == Idle
    case NameFails => ChosenHas(s, Request)
    case PutAccepted => ChosenHas(s, Request)
    case PutRefused => ChosenHas(s, Request)
    case LeaveUploading => ChosenHas(s, Uploading)
    case Unregister => ChosenHas(s, Finished)
    case Notify => s.blob.Notifying?
    case EnterProcessing => s.blob == Idle
    case MoreData(len) => AgentHolds(s) && |s.agent.received| + len <= s.agent.size
    case UploadFinished => AgentHolds(s)
    case UploadFailed => AgentHolds(s)
    case SetStatus => s.blob.Setting?
    case LeaveProcessing => s.blob == Processing
    case ProcessingFails => s.blob == Processing
  }

  /** A log that finds the list full is dropped and freed; a bulk log's callback is not
      called. */
  function CheckedStep(s: State, log: Log): State {
    if |s.entries| >= s.max then s.(refused := s.refused + [log]) else s.(dlog := Checked(log))
  }

  function InsertedStep(s: State): State
    requires s.dlog.Checked?
  {
    s.(entries := [NewEntry(|s.registered|, s.dlog.log)] + s.entries,
       registered := s.registered + [s.dlog.log],
       dlog := Waiting)
  }

  function ChosenStep(s: State): State {
    match Target(s.entries)
    case None => s
    case Some(t) => s.(entries := WithFlag(s.entries), blob := Chosen(s.entries[t].id))
  }

  function PutStep(s: State): State
    requires ChosenHas(s, Request)
  {
    var i := Find(s.entries, s.blob.id);
    s.(entries := s.entries[i := s.entries[i].(puts := s.entries[i].puts + 1)],
       agent := Busy(s.blob.id, |s.entries[i].log.data|, []),
       blob := Setting(Uploading, Some(s.blob.id), false))
  }

  function UnregisteredStep(s: State): State {
    match Target(s.entries)
    case None => s.(blob := Idle)
    case Some(t) =>
      var e := s.entries[t];
      var r := s.(entries := Without(s.entries, t), retired := s.retired + [e]);
      match e.log.callback
      case Some(callback) => r.(blob := Notifying(Call(callback, |e.log.data|, e.log.userData)))
      case None => r.(blob := Idle, frees := s.frees + [e.id])
  }

  function MoreDataStep(s: State, len: nat): State
    requires AgentHolds(s)
  {
    var i := Find(s.entries, s.agent.id);
    var e := s.entries[i];
    s.(entries := WithChunk(s.entries, i, len),
       agent := s.agent.(received := s.agent.received + Chunk(e.log.data, e.done, len)))
  }

  function FinishedStep(s: State): State
    requires AgentHolds(s)
  {
    s.(agent := Quiet,
       deliveries := s.deliveries + [Delivery(s.agent.id, s.agent.received)],
       blob := Setting(Finished, Some(s.agent.id), true))
  }

  /** The entry's retry count goes up outside the lock; the status follows. */
  function FailedStep(s: State): State
    requires AgentHolds(s)
  {
    var i := Find(s.entries, s.agent.id);
    var e := s.entries[i].(retries := s.entries[i].retries + 1);
    s.(entries := s.entries[i := e],
       agent := Quiet,
       blob := Setting(if e.retries < MAX_RETRY then Request else Finished, Some(s.agent.id), true))
  }

  function SetStep(s: State): State
    requires s.blob.Setting?
  {
    s.(entries := WithStatus(s.entries, s.blob.status),
       blob := if s.blob.processing then Processing else Idle)
  }

  function Apply(s: State, step: Step): State {
    if !Enabled(s, step) then s else
    match step
    case CheckRoom(log) => CheckedStep(s, log)
    case Insert => InsertedStep(s)
    case Choose => ChosenStep(s)
    case NameFails => s.(blob := Idle)
    case PutAccepted => PutStep(s)
    case PutRefused => s.(blob := Setting(Request, Some(s.blob.id), false))
    case LeaveUploading => s.(blob := Idle)
    case Unregister => UnregisteredStep(s)
    case Notify => s.(blob := Idle, calls := s.calls + [s.blob.call])
    case EnterProcessing => s.(blob := Processing)
    case MoreData(len) => MoreDataStep(s, len)
    case UploadFinished => FinishedStep(s)
    case UploadFailed => FailedStep(s)
    case SetStatus => SetStep(s)
    case LeaveProcessing => s.(blob := Idle)
    case ProcessingFails => s.(agent := Quiet, faults := true, blob := Setting(Request, None, false))
  }

  function Exec(s: State, steps: seq<Step>): State
    decreases |steps|
  {
    if steps == [] then s
    else Apply(Exec(s, steps[..|steps| - 1]), steps[|steps| - 1])
  }

  // ------------------------------------------------------------ the list alone

  /** Registration numbers fall along the list: a higher index is older. */
  ghost predicate Ordered(entries: seq<Entry>, bound: nat) {
    && (forall i :: 0 <= i < |entries| ==> entries[i].id < bound)
    && forall i, j :: 0 <= i < j < |entries| ==> entries[i].id > entries[j].id
  }

  /** At most one entry is flagged, and it is the oldest of its class. */
  ghost predicate OneFlag(entries: seq<Entry>) {
    forall i, j :: 0 <= i < j < |entries| && entries[i].priority ==>
      !entries[j].priority && entries[j].log.critical != entries[i].log.critical
  }

  ghost predicate EntryOk(e: Entry) {
    && (!e.priority ==> e.status == Request)
    && (e.status == Request ==> e.done == 0)
    && e.done <= |e.log.data|
  }

  ghost predicate ListOk(entries: seq<Entry>, bound: nat) {
    Ordered(entries, bound) && OneFlag(entries) && forall i :: 0 <= i < |entries| ==> EntryOk(entries[i])
  }

  function Flagged(entries: seq<Entry>): Option<Entry> {
    match Oldest(entries, 0) case None => None case Some(i) => Some(entries[i])
  }

  /** A pointer to the flagged entry finds it, and it is what every scan finds. */
  lemma FlaggedIsTarget(entries: seq<Entry>, bound: nat, id: nat)
    requires ListOk(entries, bound) && Flagged(entries).Some? && Flagged(entries).value.id == id
    ensures var i := Find(entries, id);
            i < |entries| && Target(entries) == Some(i) == Oldest(entries, 0)
            && Flagged(entries).value == entries[i] && entries[i].priority && EntryOk(entries[i])
  {
    assert entries[Oldest(entries, 0).value].id == id;
  }

  /** The flagged entry changes in place. */
  lemma UpdateFlagged(entries: seq<Entry>, bound: nat, i: nat, e: Entry)
    requires ListOk(entries, bound) && i < |entries| && entries[i].priority && EntryOk(e)
    requires e.id == entries[i].id && e.log == entries[i].log
    ensures ListOk(entries[i := e], bound)
    ensures Flagged(entries[i := e]) == if e.priority then Some(e) else None
  {
    var after := entries[i := e];
    forall j | 0 <= j < |after| && j != i ensures !after[j].priority {
      assert after[j] == entries[j];
    }
    assert after[i] == e;
  }

  /** The same, for a change that keeps the entry flagged. */
  lemma ChangeFlagged(entries: seq<Entry>, bound: nat, i: nat, e: Entry)
    requires ListOk(entries, bound) && i < |entries| && entries[i].priority
    requires e == entries[i].(puts := e.puts, retries := e.retries)
    ensures ListOk(entries[i := e], bound) && Flagged(entries[i := e]) == Some(e)
  {
    assert EntryOk(entries[i]);
    UpdateFlagged(entries, bound, i, e);
  }

  lemma InsertKeepsList(entries: seq<Entry>, log: Log, bound: nat)
    requires ListOk(entries, bound)
    ensures ListOk([NewEntry(bound, log)] + entries, bound + 1)
  {
    var after := [NewEntry(bound, log)] + entries;
    assert forall j :: 0 < j < |after| ==> after[j] == entries[j - 1];
  }

  lemma InsertKeepsFlag(entries: seq<Entry>, e: Entry)
    requires !e.priority
    ensures Flagged([e] + entries) == Flagged(entries)
  {
    var after := [e] + entries;
    assert forall j :: 0 < j < |after| ==> after[j] == entries[j - 1];
    match Oldest(entries, 0) {
      case Some(i) => assert after[i + 1].priority;
      case None =>
    }
  }

  lemma RemoveKeepsList(entries: seq<Entry>, bound: nat, i: nat)
    requires ListOk(entries, bound) && i < |entries| && entries[i].priority
    ensures ListOk(Without(entries, i), bound) && Flagged(Without(entries, i)) == None
  {
    var after := Without(entries, i);
    assert forall j :: 0 <= j < |after| ==> after[j] == entries[if j < i then j else j + 1];
  }

  lemma TargetIsOldestOfItsClass(entries: seq<Entry>, bound: nat)
    requires ListOk(entries, bound) && entries != []
    ensures Target(entries).Some?
    ensures var t := Target(entries).value;
            forall j :: t < j < |entries| ==> entries[j].log.critical != entries[t].log.critical
  {
    TargetExists(entries);
    var t := Target(entries).value;
    if Oldest(entries, 0).None? {
      TargetPrecedesAll(entries, t);
      forall j: nat | t < j < |entries| ensures entries[j].log.critical != entries[t].log.critical {
        assert Precedes(entries, t, j);
      }
    } else {
      assert entries[t].priority;
    }
  }

  lemma FlagKeepsList(entries: seq<Entry>, bound: nat)
    requires ListOk(entries, bound) && Flagged(entries).None? && entries != []
    ensures Target(entries).Some?
    ensures var t := Target(entries).value;
            && WithFlag(entries) == entries[t := entries[t].(priority := true)]
            && ListOk(WithFlag(entries), bound)
            && Flagged(WithFlag(entries)) == Some(entries[t].(priority := true))
  {
    TargetIsOldestOfItsClass(entries, bound);
    var t, after := Target(entries).value, WithFlag(entries);
    assert forall j :: 0 <= j < |entries| && j != t ==> after[j] == entries[j] && !after[j].priority;
    assert after[t].priority;
  }

  /** Going back to a request changes nothing but the flagged entry. */
  lemma RequestSparesTheRest(entries: seq<Entry>, bound: nat)
    requires ListOk(entries, bound) && Flagged(entries).None?
    ensures WithStatus(entries, Request) == entries
  {
    match Target(entries)
    case None =>
    case Some(t) => assert EntryOk(entries[t]) && !entries[t].priority;
  }

  // ---------------------------------------------------- one upload in flight

  /** The agent works on the flagged entry and has received its first bytes. */
  ghost predicate Holds(agent: Agent, f: Option<Entry>) {
    agent.Busy? ==>
      && f.Some? && agent.id == f.value.id && agent.size == |f.value.log.data|
      && f.value.done <= |f.value.log.data|
      && agent.received == f.value.log.data[..f.value.done]
  }

  /** What the blob thread's position says about the flagged entry. */
  ghost predicate Focus(s: State) {
    var f := Flagged(s.entries);
    && Holds(s.agent, f)
    && match s.blob
       case Chosen(id) => f.Some? && f.value.id == id && (f.value.status == Uploading <==> s.agent.Busy?)
       case Setting(status, about, _) =>
         && (about.Some? ==> f.Some? && f.value.id == about.value)
         && (status == Uploading ==> about.Some? && f.value.status == Request && s.agent.Busy?)
         && (status == Finished ==> about.Some? && f.value.status == Uploading && s.agent == Quiet)
         && (status == Request ==> s.agent == Quiet)
       case _ => s.agent.Busy? <==> f.Some? && f.value.status == Uploading
  }

  ghost predicate Coherent(s: State) {
    ListOk(s.entries, |s.registered|) && Focus(s)
  }

  lemma InsertKeepsCoherent(s: State)
    requires Coherent(s) && s.dlog.Checked?
    ensures Coherent(InsertedStep(s))
  {
    InsertKeepsList(s.entries, s.dlog.log, |s.registered|);
    InsertKeepsFlag(s.entries, NewEntry(|s.registered|, s.dlog.log));
  }

  lemma ChooseKeepsCoherent(s: State)
    requires Coherent(s) && s.blob == Idle
    ensures Coherent(ChosenStep(s))
  {
    TargetExists(s.entries);
    if s.entries != [] {
      var t := Target(s.entries).value;
      assert EntryOk(s.entries[t]);
      if Flagged(s.entries).None? {
        FlagKeepsList(s.entries, |s.registered|);
      }
    }
  }

  /** A change of the flagged entry's counts, found through a pointer. */
  lemma CountKeepsList(entries: seq<Entry>, bound: nat, id: nat, e: Entry)
    requires ListOk(entries, bound) && Flagged(entries).Some? && Flagged(entries).value.id == id
    requires e == Flagged(entries).value.(puts := e.puts, retries := e.retries)
    ensures var i := Find(entries, id);
            && i < |entries| && Flagged(entries) == Some(entries[i]) && EntryOk(entries[i])
            && ListOk(entries[i := e], bound) && Flagged(entries[i := e]) == Some(e)
  {
    var i := Find(entries, id);
    assert i < |entries| && Flagged(entries) == Some(entries[i]) && entries[i].priority && EntryOk(entries[i]) by {
      FlaggedIsTarget(entries, bound, id);
    }
    ChangeFlagged(entries, bound, i, e);
  }

  lemma ChunkFlagged(entries: seq<Entry>, bound: nat, i: nat, len: nat)
    requires ListOk(entries, bound) && i < |entries| && entries[i].priority && EntryOk(entries[i])
    requires entries[i].status != Request && entries[i].done + len <= |entries[i].log.data|
    ensures ListOk(WithChunk(entries, i, len), bound)
    ensures Flagged(WithChunk(entries, i, len)) == Some(entries[i].(done := entries[i].done + len))
  {
    UpdateFlagged(entries, bound, i, entries[i].(done := entries[i].done + len));
  }

  /** The flagged entry hands out some more bytes. */
  lemma ChunkKeepsList(entries: seq<Entry>, bound: nat, id: nat, len: nat)
    requires ListOk(entries, bound) && Flagged(entries).Some? && Flagged(entries).value.id == id
    requires var e := Flagged(entries).value; e.status != Request && e.done + len <= |e.log.data|
    ensures var i := Find(entries, id);
            && i < |entries| && Flagged(entries) == Some(entries[i])
            && ListOk(WithChunk(entries, i, len), bound)
            && Flagged(WithChunk(entries, i, len)) == Some(entries[i].(done := entries[i].done + len))
  {
    var i := Find(entries, id);
    assert i < |entries| && Flagged(entries) == Some(entries[i]) && entries[i].priority && EntryOk(entries[i]) by {
      FlaggedIsTarget(entries, bound, id);
    }
    ChunkFlagged(entries, bound, i, len);
  }

  lemma PutKeepsList(s: State)
    requires Coherent(s) && ChosenHas(s, Request)
    ensures ListOk(PutStep(s).entries, |s.registered|)
    ensures var e := s.entries[Find(s.entries, s.blob.id)];
            && Flagged(s.entries) == Some(e) && EntryOk(e)
            && Flagged(PutStep(s).entries) == Some(e.(puts := e.puts + 1))
  {
    var e, i := Flagged(s.entries).value, Find(s.entries, s.blob.id);
    CountKeepsList(s.entries, |s.registered|, s.blob.id, e.(puts := e.puts + 1));
    assert PutStep(s).entries == s.entries[i := e.(puts := e.puts + 1)];
  }

  lemma PutKeepsCoherent(s: State)
    requires Coherent(s) && ChosenHas(s, Request)
    ensures Coherent(PutStep(s))
  {
    PutKeepsList(s);
  }

  lemma UnregisterKeepsCoherent(s: State)
    requires Coherent(s) && ChosenHas(s, Finished)
    ensures Coherent(UnregisteredStep(s))
  {
    FlaggedIsTarget(s.entries, |s.registered|, s.blob.id);
    RemoveKeepsList(s.entries, |s.registered|, Find(s.entries, s.blob.id));
  }

  lemma ChunkExtends(data: seq<Byte>, from: nat, len: nat)
    requires from + len <= |data|
    ensures data[..from] + Chunk(data, from, len) == data[..from + len]
  {
  }

  lemma MoreDataKeepsList(s: State, len: nat)
    requires Coherent(s) && AgentHolds(s)
    requires var e := s.entries[Find(s.entries, s.agent.id)];
             Flagged(s.entries) == Some(e) && e.done + len <= |e.log.data|
    ensures ListOk(MoreDataStep(s, len).entries, |s.registered|)
    ensures var e := s.entries[Find(s.entries, s.agent.id)];
            Flagged(MoreDataStep(s, len).entries) == Some(e.(done := e.done + len))
  {
    ChunkKeepsList(s.entries, |s.registered|, s.agent.id, len);
  }

  /** The agent's count and the entry's agree, so it never asks beyond the data. */
  lemma AgentAsksWithinBounds(s: State, len: nat)
    requires Coherent(s) && Enabled(s, MoreData(len))
    ensures var e := s.entries[Find(s.entries, s.agent.id)];
            && Flagged(s.entries) == Some(e)
            && e.done + len <= |e.log.data| && s.agent.received == e.log.data[..e.done]
  {
    FlaggedIsTarget(s.entries, |s.registered|, s.agent.id);
  }

  lemma MoreDataKeepsCoherent(s: State, len: nat)
    requires Coherent(s) && Enabled(s, MoreData(len))
    ensures Coherent(MoreDataStep(s, len))
  {
    AgentAsksWithinBounds(s, len);
    MoreDataKeepsList(s, len);
    var e := s.entries[Find(s.entries, s.agent.id)];
    ChunkExtends(e.log.data, e.done, len);
  }

  lemma FinishKeepsCoherent(s: State)
    requires Coherent(s) && AgentHolds(s)
    ensures Coherent(FinishedStep(s))
  {
  }

  lemma FailKeepsList(s: State)
    requires Coherent(s) && AgentHolds(s)
    ensures ListOk(FailedStep(s).entries, |s.registered|)
    ensures var e := s.entries[Find(s.entries, s.agent.id)];
            && Flagged(s.entries) == Some(e)
            && Flagged(FailedStep(s).entries) == Some(e.(retries := e.retries + 1))
  {
    var e, i := Flagged(s.entries).value, Find(s.entries, s.agent.id);
    CountKeepsList(s.entries, |s.registered|, s.agent.id, e.(retries := e.retries + 1));
    assert FailedStep(s).entries == s.entries[i := e.(retries := e.retries + 1)];
  }

  lemma FailKeepsCoherent(s: State)
    requires Coherent(s) && AgentHolds(s)
    ensures Coherent(FailedStep(s))
  {
    FailKeepsList(s);
  }

  lemma SetKeepsCoherent(s: State)
    requires Coherent(s) && s.blob.Setting?
    ensures Coherent(SetStep(s))
  {
    var f := Flagged(s.entries);
    if f.None? {
      RequestSparesTheRest(s.entries, |s.registered|);
    } else {
      FlaggedIsTarget(s.entries, |s.registered|, f.value.id);
      var i := Find(s.entries, f.value.id);
      var e := s.entries[i].(status := s.blob.status);
      UpdateFlagged(s.entries, |s.registered|, i,
                    if s.blob.status == Request then e.(done := 0, priority := false) else e);
    }
  }

  /** The thread returns without changing the list. */
  lemma ReturnKeepsCoherent(s: State, step: Step)
    requires Coherent(s) && Enabled(s, step) && (step.NameFails? || step.PutRefused? || step.LeaveUploading?)
    ensures Coherent(Apply(s, step))
  {
    PointerIsFlagged(s);
  }

  lemma MoveKeepsCoherent(s: State, step: Step)
    requires Coherent(s) && Enabled(s, step)
    requires step.CheckRoom? || step.Notify? || step.EnterProcessing? || step.LeaveProcessing? || step.ProcessingFails?
    ensures Coherent(Apply(s, step))
  {
  }

  lemma StepKeepsCoherent(s: State, step: Step)
    requires Coherent(s)
    ensures Coherent(Apply(s, step))
  {
    if Enabled(s, step) {
      match step {
        case Insert => InsertKeepsCoherent(s);
        case Choose => ChooseKeepsCoherent(s);
        case PutAccepted => PutKeepsCoherent(s);
        case Unregister => UnregisterKeepsCoherent(s);
        case MoreData(len) => MoreDataKeepsCoherent(s, len);
        case UploadFinished => FinishKeepsCoherent(s);
        case UploadFailed => FailKeepsCoherent(s);
        case SetStatus => SetKeepsCoherent(s);
        case NameFails => ReturnKeepsCoherent(s, step);
        case PutRefused => ReturnKeepsCoherent(s, step);
        case LeaveUploading => ReturnKeepsCoherent(s, step);
        case _ => MoveKeepsCoherent(s, step);
      }
    }
  }

  lemma PointerIsFlagged(s: State)
    requires Coherent(s) && s.blob.Chosen?
    ensures Flagged(s.entries) == Some(s.entries[Find(s.entries, s.blob.id)])
  {
    FlaggedIsTarget(s.entries, |s.registered|, s.blob.id);
  }

  lemma {:induction false} RunIsCoherent(max: nat, steps: seq<Step>)
    ensures Coherent(Exec(Start(max), steps))
    decreases |steps|
  {
    if steps != [] {
      RunIsCoherent(max, steps[..|steps| - 1]);
      StepKeepsCoherent(Exec(Start(max), steps[..|steps| - 1]), steps[|steps| - 1]);
    }
  }
}

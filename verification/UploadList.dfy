/**
 The list of uploads waiting for the EVP agent.

 The source keeps two such lists, local and cloud, with the same code.  New
 entries go to the head, so a higher index means an older entry.  Every
 operation finds its target by the same scan over the whole list.
 */
module UploadList {
  import opened Common

  datatype UploadStatus = Request | Uploading | Finished

  /** What a caller hands over for upload; without a callback the buffer belongs
      to the list. */
  datatype Log = Log(data: seq<Byte>, callback: Option<nat>, userData: int, critical: bool)

  datatype Entry = Entry(
    id: nat,               // registration number, stands for the entry's address
    log: Log,
    done: nat,             // bytes handed to the agent
    status: UploadStatus,
    priority: bool,
    retries: nat,
    puts: nat)             // history: uploads of this entry the agent accepted

  const MAX_RETRY: nat := 3

  function NewEntry(id: nat, log: Log): Entry {
    Entry(id, log, 0, Request, false, 0, 0)
  }

  /** 0 for the flagged entry, 1 for a critical one, 2 for a normal one. */
  function Rank(e: Entry): nat {
    if e.priority then 0 else if e.log.critical then 1 else 2
  }

  /** The oldest entry of a rank, which is the last one a scan sees. */
  function Oldest(entries: seq<Entry>, rank: nat): (r: Option<nat>)
    ensures r.Some? ==> r.value < |entries| && Rank(entries[r.value]) == rank
                        && forall j :: r.value < j < |entries| ==> Rank(entries[j]) != rank
    ensures r.None? ==> forall j :: 0 <= j < |entries| ==> Rank(entries[j]) != rank
  {
    if entries == [] then None
    else if Rank(entries[|entries| - 1]) == rank then Some(|entries| - 1)
    else Oldest(entries[..|entries| - 1], rank)
  }

  /** The entry every operation works on. */
  function Target(entries: seq<Entry>): (r: Option<nat>)
    ensures r.Some? ==> r.value < |entries|
  {
    var flagged := Oldest(entries, 0);
    var critical := Oldest(entries, 1);
    if flagged.Some? then flagged else if critical.Some? then critical else Oldest(entries, 2)
  }

  /** Entry `i` comes before entry `j` in the order of service. */
  predicate Precedes(entries: seq<Entry>, i: nat, j: nat)
    requires i < |entries| && j < |entries|
  {
    Rank(entries[i]) < Rank(entries[j]) || (Rank(entries[i]) == Rank(entries[j]) && j <= i)
  }

  /** The scan picks the flagged entry, else the oldest critical, else the oldest
      normal one: exactly the entry that precedes all others. */
  lemma TargetPrecedesAll(entries: seq<Entry>, i: nat)
    requires i < |entries|
    ensures Target(entries) == Some(i) <==> forall j: nat :: j < |entries| ==> Precedes(entries, i, j)
  {
    var t := Target(entries);
    assert t.Some?;
    forall j: nat | j < |entries| ensures Precedes(entries, t.value, j) {
      assert Rank(entries[j]) <= 2;
    }
    if forall j: nat :: j < |entries| ==> Precedes(entries, i, j) {
      assert Precedes(entries, i, t.value) && Precedes(entries, t.value, i);
    }
  }

  /** The same by the fields of the entries alone: the last flagged one, else the last
      critical one, else the last of all. */
  lemma TargetByFields(entries: seq<Entry>, i: nat)
    requires i < |entries|
    ensures Target(entries) == Some(i) <==>
            if exists j :: 0 <= j < |entries| && entries[j].priority then
              entries[i].priority && forall j :: i < j < |entries| ==> !entries[j].priority
            else if exists j :: 0 <= j < |entries| && entries[j].log.critical then
              entries[i].log.critical && forall j :: i < j < |entries| ==> !entries[j].log.critical
            else i == |entries| - 1
  {
    OldestByFields(entries);
    TargetExists(entries);
  }

  lemma OldestByFields(entries: seq<Entry>)
    ensures Oldest(entries, 0).Some? <==> exists j :: 0 <= j < |entries| && entries[j].priority
    ensures Oldest(entries, 0).None? ==>
              (Oldest(entries, 1).Some? <==> exists j :: 0 <= j < |entries| && entries[j].log.critical)
    ensures Oldest(entries, 0).None? && Oldest(entries, 1).None? && entries != [] ==>
              Oldest(entries, 2) == Some(|entries| - 1)
  {
    forall j | 0 <= j < |entries|
      ensures Rank(entries[j]) == if entries[j].priority then 0 else if entries[j].log.critical then 1 else 2
    {
    }
    if entries != [] && Oldest(entries, 0).None? && Oldest(entries, 1).None? {
      assert Rank(entries[|entries| - 1]) == 2;
    }
  }

  lemma TargetExists(entries: seq<Entry>)
    ensures Target(entries).None? <==> entries == []
  {
    if entries != [] {
      assert Rank(entries[0]) <= 2;
    }
  }

  /** Sets the target's status; going back to a request gives up its progress
      and its flag. */
  function WithStatus(entries: seq<Entry>, status: UploadStatus): (r: seq<Entry>)
    ensures |r| == |entries|
  {
    var t := Target(entries);
    if t.None? then entries
    else
      var e := entries[t.value].(status := status);
      entries[t.value := if status == Request then e.(done := 0, priority := false) else e]
  }

  /** Flags the target, unless an entry is flagged already. */
  function WithFlag(entries: seq<Entry>): (r: seq<Entry>)
    ensures |r| == |entries|
  {
    var t := Target(entries);
    if t.None? || Oldest(entries, 0).Some? then entries
    else entries[t.value := entries[t.value].(priority := true)]
  }

  /** A copy of the target's next bytes and the entry after handing them out. */
  function WithChunk(entries: seq<Entry>, i: nat, len: nat): (r: seq<Entry>)
    requires i < |entries|
    ensures |r| == |entries|
  {
    entries[i := entries[i].(done := entries[i].done + len)]
  }

  class List {
    var entries: seq<Entry>

    constructor ()
      ensures entries == []
    {
      entries := [];
    }

    /** The scan shared by all operations.  `-1` stands for a null pointer. */
    method FindTarget() returns (flagged: int, target: int)
      ensures flagged == (match Oldest(entries, 0) case None => -1 case Some(i) => i)
      ensures target == (match Target(entries) case None => -1 case Some(i) => i)
    {
      var critical, normal := -1, -1;
      flagged := -1;
      var i := 0;
      while i < |entries|
        invariant 0 <= i <= |entries|
        invariant flagged == (match Oldest(entries[..i], 0) case None => -1 case Some(j) => j)
        invariant critical == (match Oldest(entries[..i], 1) case None => -1 case Some(j) => j)
        invariant normal == (match Oldest(entries[..i], 2) case None => -1 case Some(j) => j)
      {
        assert entries[..i + 1][..i] == entries[..i];
        if entries[i].priority {
          flagged := i;
        } else if entries[i].log.critical {
          critical := i;
        } else {
          normal := i;
        }
        i := i + 1;
      }
      assert entries[..i] == entries;
      if flagged != -1 {
        target := flagged;
      } else if critical != -1 {
        target := critical;
      } else {
        target := normal;
      }
    }

    method SetUploadStatus(status: UploadStatus)
      modifies this
      ensures entries == WithStatus(old(entries), status)
    {
      var _, t := FindTarget();
      if t != -1 {
        var e := entries[t].(status := status);
        if status == Request {
          e := e.(done := 0, priority := false);
        }
        entries := entries[t := e];
      }
    }

    method GetPriorityUploadData() returns (data: Option<Entry>)
      modifies this
      ensures entries == WithFlag(old(entries))
      ensures data == match Target(old(entries)) case None => None case Some(i) => Some(entries[i])
    {
      var flagged, t := FindTarget();
      if t == -1 {
        return None;
      }
      if flagged == -1 {
        entries := entries[t := entries[t].(priority := true)];
      }
      data := Some(entries[t]);
    }

    method CheckListNum() returns (count: nat)
      ensures count == |entries|
    {
      count := 0;
      while count < |entries|
        invariant count <= |entries|
      {
        count := count + 1;
      }
    }

    method Register(id: nat, log: Log)
      modifies this
      ensures entries == [NewEntry(id, log)] + old(entries)
    {
      entries := [Entry(id, log, 0, Request, false, 0, 0)] + entries;
    }

    /** Removes the target and returns it: the caller runs its callback, or has
        its buffer freed when it has none. */
    method UnregisterPriority() returns (removed: Option<Entry>)
      modifies this
      ensures match Target(old(entries))
              case None => removed == None && entries == old(entries)
              case Some(i) => removed == Some(old(entries)[i]) && entries == Without(old(entries), i)
    {
      var _, t := FindTarget();
      if t == -1 {
        return None;
      }
      removed := Some(entries[t]);
      entries := entries[..t] + entries[t + 1..];
    }
  }
}

/**
 The small array of event messages that wait until the agent is connected.
 It keeps the oldest five messages; a message that finds it full is dropped.
 */
module ElogSave {
  import opened Common

  const SAVE_NUM: nat := 5

  function Saved<T>(contents: seq<T>, x: T): seq<T> {
    if |contents| < SAVE_NUM then contents + [x] else contents
  }

  function Loaded<T>(contents: seq<T>): seq<T> {
    if contents == [] then [] else contents[1..]
  }

  class SaveArray {
    const slots: array<string>
    var count: nat

    ghost predicate Valid()
      reads this
    {
      slots.Length == SAVE_NUM && count <= SAVE_NUM
    }

    ghost function Contents(): seq<string>
      requires Valid()
      reads this, slots
    {
      slots[..count]
    }

    constructor ()
      ensures Valid() && fresh(slots) && Contents() == []
    {
      slots := new string[SAVE_NUM](_ => "");
      count := 0;
    }

    /** Dropping a message is not reported to the caller. */
    method SaveElog(text: string)
      requires Valid()
      modifies this, slots
      ensures Valid() && Contents() == Saved(old(Contents()), text)
    {
      if count >= SAVE_NUM {
        return;
      }
      slots[count] := text;
      count := count + 1;
    }

    method LoadElog() returns (text: Option<string>)
      requires Valid()
      modifies this, slots
      ensures Valid() && Contents() == Loaded(old(Contents()))
      ensures text == if old(Contents()) == [] then None else Some(old(Contents())[0])
    {
      if count == 0 {
        return None;
      }
      text := Some(slots[0]);
      var i := 1;
      while i < count
        invariant 1 <= i <= count && count == old(count)
        invariant forall k :: 0 <= k < i - 1 ==> slots[k] == old(slots[k + 1])
        invariant forall k :: i <= k < count ==> slots[k] == old(slots[k])
      {
        slots[i - 1] := slots[i];
        i := i + 1;
      }
      count := count - 1;
    }

    method ClearElog()
      requires Valid()
      modifies this, slots
      ensures Valid() && Contents() == []
    {
      var i := 0;
      while i < count
        invariant 0 <= i <= count && Valid()
      {
        slots[i] := "";
        i := i + 1;
      }
      count := 0;
    }
  }

  // ------------------------------------------------------------ a bounded FIFO

  datatype Op<T> = Save(x: T) | Load

  /** The messages waiting, loaded and kept after a run from the empty array. */
  datatype Trace<T> = Trace(contents: seq<T>, loaded: seq<T>, kept: seq<T>)

  function Next<T>(t: Trace<T>, op: Op<T>): Trace<T> {
    match op
    case Save(x) =>
      t.(contents := Saved(t.contents, x), kept := if |t.contents| < SAVE_NUM then t.kept + [x] else t.kept)
    case Load =>
      if t.contents == [] then t
      else t.(contents := Loaded(t.contents), loaded := t.loaded + [t.contents[0]])
  }

  function Run<T>(ops: seq<Op<T>>): Trace<T> {
    if ops == [] then Trace([], [], []) else Next(Run(ops[..|ops| - 1]), ops[|ops| - 1])
  }

  /** Messages come out in the order they were kept, none is lost or repeated, and
      at most five wait. */
  lemma {:induction false} SaveArrayIsBoundedFifo<T>(ops: seq<Op<T>>)
    ensures var t := Run(ops); t.kept == t.loaded + t.contents && |t.contents| <= SAVE_NUM
  {
    if ops != [] {
      SaveArrayIsBoundedFifo(ops[..|ops| - 1]);
    }
  }

  /** A message is dropped exactly when five kept messages are still waiting; a
      dropped message leaves the others alone. */
  lemma WhenSaveDrops<T>(ops: seq<Op<T>>, x: T)
    ensures var t, u := Run(ops), Run(ops + [Save(x)]);
            && u.loaded == t.loaded
            && (if |t.kept| - |t.loaded| == SAVE_NUM then u == t else u.kept == t.kept + [x])
  {
    SaveArrayIsBoundedFifo(ops);
    assert (ops + [Save(x)])[..|ops|] == ops;
  }
}

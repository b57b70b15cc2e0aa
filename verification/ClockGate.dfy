/**
 The gate before the clock parameters: a readers/writer counter under one mutex and
 a "synchronization in progress" flag, the barrier, under another.

 Any number of threads run the functions that enter and leave.  A writer keeps the
 barrier mutex while it waits for the counter, though the wait gives up the counter
 mutex; the thread that raises the barrier holds only one mutex at a time.
 */
module ClockGate {
  import opened Common

  /** Where a thread is. */
  datatype Pc =
    | Out
    | Reading
    // entering as a writer, holding the barrier mutex
    | Asking
    | WantsCounter
    | HasCounter          // holds the counter mutex as well
    | WaitsCounter        // in the condition wait
    | GrantedLocked       // holds both mutexes, counted as the writer
    | Granted             // holds the barrier mutex, counted as the writer
    | Writing
    // raising the barrier; `epoch` tells whether it was lowered since
    | Raised(epoch: nat)
    | RaisedHasCounter(epoch: nat)
    | RaisedWaits(epoch: nat)

  datatype State = State(
    counter: int,
    flag: bool,
    barrierMutex: Option<nat>,   // the thread that holds it
    counterMutex: Option<nat>,
    threads: seq<Pc>,
    // history
    epoch: nat,                  // how often the barrier has been lowered
    barrierUp: bool)             // raised by a call that has returned, not lowered since

  datatype Step =
    | EnterReading(t: nat)
    | LeaveReading(t: nat)
    | AskWriting(t: nat)
    | TestBarrier(t: nat)
    | LockCounter(t: nat)
    | TestCounter(t: nat)
    | Wake(t: nat)
    | UnlockCounter(t: nat)
    | UnlockBarrier(t: nat)
    | LeaveWriting(t: nat)
    | RaiseBarrier(t: nat)
    | LowerBarrier(t: nat)

  function Start(n: nat): State {
    State(0, false, None, None, seq(n, i => Out), 0, false)
  }

  // ------------------------------------------------------------- atomic sections

  function Entered(counter: int): int {
    if counter >= 0 then counter + 1 else counter
  }

  function Claimed(counter: int): int {
    if counter == 0 then -1 else counter
  }

  function ReaderLeft(counter: int): int {
    if counter > 0 then counter - 1 else counter
  }

  function WriterLeft(counter: int): int {
    if counter < 0 then counter + 1 else counter
  }

  /** The counter and the flag when a synchronization is over. */
  function SyncCompleted(counter: int, flag: bool): (int, bool) {
    (counter, false)
  }

  /** The two variables and the critical sections that change them in place. */
  class Gate {
    var isInRw: int
    var isInSync: bool

    constructor ()
      ensures isInRw == 0 && !isInSync
    {
      isInRw, isInSync := 0, false;
    }

    method EnterReadingIfPossible() returns (entered: bool)
      modifies this
      ensures isInRw == Entered(old(isInRw)) && isInSync == old(isInSync)
      ensures old(isInRw) >= -1 ==> (entered <==> old(isInRw) >= 0)
    {
      if isInRw >= 0 {
        isInRw := isInRw + 1;
      }
      entered := isInRw > 0;
    }

    /** One pass of the wait loop of a writer. */
    method ClaimIfFree() returns (claimed: bool)
      modifies this
      ensures claimed <==> old(isInRw) == 0
      ensures isInRw == Claimed(old(isInRw)) && isInSync == old(isInSync)
    {
      claimed := isInRw == 0;
      if claimed {
        isInRw := -1;
      }
    }

    method LeaveReading()
      modifies this
      ensures isInRw == ReaderLeft(old(isInRw)) && isInSync == old(isInSync)
    {
      if isInRw > 0 {
        isInRw := isInRw - 1;
      }
    }

    method LeaveWriting()
      modifies this
      ensures isInRw == WriterLeft(old(isInRw)) && isInSync == old(isInSync)
    {
      if isInRw < 0 {
        isInRw := isInRw + 1;
      }
    }

    method MarkCompletedSync()
      modifies this
      ensures (isInRw, isInSync) == SyncCompleted(old(isInRw), old(isInSync))
    {
      isInSync := false;
    }
  }

  // ------------------------------------------------------------ transition system

  function Move(s: State, t: nat, pc: Pc): State
    requires t < |s.threads|
  {
    s.(threads := s.threads[t := pc])
  }

  predicate At(s: State, t: nat, pc: Pc) {
    t < |s.threads| && s.threads[t] == pc
  }

  predicate Enabled(s: State, step: Step) {
    match step
    case EnterReading(t) => At(s, t, Out) && s.counterMutex.None?
    case LeaveReading(t) => At(s, t, Reading) && s.counterMutex.None?
    case AskWriting(t) => At(s, t, Out) && s.barrierMutex.None?
    case TestBarrier(t) => At(s, t, Asking)
    case LockCounter(t) =>
      t < |s.threads| && (s.threads[t] == WantsCounter || s.threads[t].Raised?) && s.counterMutex.None?
    case TestCounter(t) => t < |s.threads| && (s.threads[t] == HasCounter || s.threads[t].RaisedHasCounter?)
    case Wake(t) =>
      t < |s.threads| && (s.threads[t] == WaitsCounter || s.threads[t].RaisedWaits?) && s.counterMutex.None?
    case UnlockCounter(t) => At(s, t, GrantedLocked)
    case UnlockBarrier(t) => At(s, t, Granted)
    case LeaveWriting(t) => At(s, t, Writing) && s.counterMutex.None?
    case RaiseBarrier(t) => At(s, t, Out) && s.barrierMutex.None?
    case LowerBarrier(t) => At(s, t, Out) && s.barrierMutex.None?
  }

  function TestedBarrier(s: State, t: nat): State
    requires t < |s.threads|
  {
    if s.flag then Move(s, t, Out).(barrierMutex := None) else Move(s, t, WantsCounter)
  }

  /** Taking the counter mutex, at first or when a wait ends. */
  function LockedCounter(s: State, t: nat): State
    requires t < |s.threads|
  {
    var pc := match s.threads[t]
              case Raised(e) => RaisedHasCounter(e)
              case RaisedWaits(e) => RaisedHasCounter(e)
              case _ => HasCounter;
    Move(s, t, pc).(counterMutex := Some(t))
  }

  /** A writer claims the free counter; both kinds of thread wait otherwise. */
  function TestedCounter(s: State, t: nat): State
    requires t < |s.threads|
  {
    match s.threads[t]
    case RaisedHasCounter(e) =>
      if s.counter < 0 then Move(s, t, RaisedWaits(e)).(counterMutex := None)
      else Move(s, t, Out).(counterMutex := None, barrierUp := s.barrierUp || e == s.epoch)
    case _ =>
      if s.counter == 0 then Move(s, t, GrantedLocked).(counter := Claimed(s.counter))
      else Move(s, t, WaitsCounter).(counterMutex := None)
  }

  function Apply(s: State, step: Step): State {
    if !Enabled(s, step) then s else
    match step
    case EnterReading(t) =>
      Move(s, t, if s.counter >= 0 then Reading else Out).(counter := Entered(s.counter))
    case LeaveReading(t) => Move(s, t, Out).(counter := ReaderLeft(s.counter))
    case AskWriting(t) => Move(s, t, Asking).(barrierMutex := Some(t))
    case TestBarrier(t) => TestedBarrier(s, t)
    case LockCounter(t) => LockedCounter(s, t)
    case TestCounter(t) => TestedCounter(s, t)
    case Wake(t) => LockedCounter(s, t)
    case UnlockCounter(t) => Move(s, t, Granted).(counterMutex := None)
    case UnlockBarrier(t) => Move(s, t, Writing).(barrierMutex := None)
    case LeaveWriting(t) => Move(s, t, Out).(counter := WriterLeft(s.counter))
    case RaiseBarrier(t) => Move(s, t, Raised(s.epoch)).(flag := true)
    case LowerBarrier(t) =>
      var (counter, flag) := SyncCompleted(s.counter, s.flag);
      s.(counter := counter, flag := flag, barrierUp := false, epoch := s.epoch + 1)
  }

  function Exec(s: State, steps: seq<Step>): State
    decreases |steps|
  {
    if steps == [] then s else Apply(Exec(s, steps[..|steps| - 1]), steps[|steps| - 1])
  }

  // ---------------------------------------------------------------- invariants

  /** Inside as a writer. */
  predicate IsWriter(pc: Pc) {
    pc == GrantedLocked || pc == Granted || pc == Writing
  }

  /** Past the barrier test and not yet out of the barrier mutex. */
  predicate IsCommitted(pc: Pc) {
    pc == WantsCounter || pc == HasCounter || pc == WaitsCounter || pc == GrantedLocked || pc == Granted
  }

  predicate HoldsBarrier(pc: Pc) {
    pc == Asking || IsCommitted(pc)
  }

  predicate HoldsCounter(pc: Pc) {
    pc == HasCounter || pc == GrantedLocked || pc.RaisedHasCounter?
  }

  function Readers(threads: seq<Pc>): nat {
    if threads == [] then 0
    else Readers(threads[..|threads| - 1]) + if threads[|threads| - 1] == Reading then 1 else 0
  }

  function Writers(threads: seq<Pc>): nat {
    if threads == [] then 0
    else Writers(threads[..|threads| - 1]) + if IsWriter(threads[|threads| - 1]) then 1 else 0
  }

  /** The counter is -1 exactly when one writer is inside; otherwise it is the number
      of readers inside. */
  ghost predicate Exclusive(s: State) {
    && s.counter == (if Writers(s.threads) == 1 then -1 else Readers(s.threads))
    && Writers(s.threads) <= 1
    && (Writers(s.threads) == 1 ==> Readers(s.threads) == 0)
  }

  ghost predicate MutexesHeld(s: State) {
    && (forall t :: 0 <= t < |s.threads| ==> (HoldsBarrier(s.threads[t]) <==> s.barrierMutex == Some(t)))
    && (forall t :: 0 <= t < |s.threads| ==> (HoldsCounter(s.threads[t]) <==> s.counterMutex == Some(t)))
  }

  ghost predicate EpochOk(pc: Pc, epoch: nat, flag: bool) {
    (pc.Raised? || pc.RaisedHasCounter? || pc.RaisedWaits?) ==> pc.epoch <= epoch && (pc.epoch == epoch ==> flag)
  }

  /** With the flag up no writer is past the barrier test. */
  ghost predicate BarrierWorks(s: State) {
    && (s.flag ==> forall t :: 0 <= t < |s.threads| ==> !IsCommitted(s.threads[t]))
    && (forall t :: 0 <= t < |s.threads| ==> EpochOk(s.threads[t], s.epoch, s.flag))
    && (s.barrierUp ==> s.flag && Writers(s.threads) == 0)
  }

  ghost predicate Inv(s: State) {
    Exclusive(s) && MutexesHeld(s) && BarrierWorks(s)
  }

  lemma {:induction false} MoveCounts(threads: seq<Pc>, t: nat, pc: Pc)
    requires t < |threads|
    ensures Readers(threads[t := pc]) + (if threads[t] == Reading then 1 else 0)
         == Readers(threads) + if pc == Reading then 1 else 0
    ensures Writers(threads[t := pc]) + (if IsWriter(threads[t]) then 1 else 0)
         == Writers(threads) + if IsWriter(pc) then 1 else 0
    decreases |threads|
  {
    var n := |threads| - 1;
    if t == n {
      assert threads[t := pc][..n] == threads[..n];
    } else {
      assert threads[t := pc][..n] == threads[..n][t := pc];
      MoveCounts(threads[..n], t, pc);
    }
  }

  lemma {:induction false} Inside(threads: seq<Pc>, t: nat)
    requires t < |threads|
    ensures threads[t] == Reading ==> Readers(threads) >= 1
    ensures IsWriter(threads[t]) ==> Writers(threads) >= 1
    decreases |threads|
  {
    if t < |threads| - 1 {
      Inside(threads[..|threads| - 1], t);
    }
  }

  /** How one thread's move may change a mutex it takes or gives up. */
  predicate LockFollows(held: bool, holds: bool, before: Option<nat>, after: Option<nat>, t: nat) {
    if held == holds then after == before
    else if held then after == None
    else before == None && after == Some(t)
  }

  /** How it may change the counter. */
  predicate CounterFollows(before: Pc, after: Pc, c: int, d: int) {
    if before != Reading && after == Reading then !IsWriter(before) && c >= 0 && d == c + 1
    else if before == Reading && after != Reading then !IsWriter(after) && d == ReaderLeft(c)
    else if !IsWriter(before) && IsWriter(after) then c == 0 && d == -1
    else if IsWriter(before) && !IsWriter(after) then d == WriterLeft(c)
    else d == c
  }

  /** A step moves one thread, and mutexes and counter follow its move. */
  ghost predicate Local(s: State, u: State, t: nat) {
    && t < |s.threads| == |u.threads|
    && u.threads == s.threads[t := u.threads[t]]
    && LockFollows(HoldsBarrier(s.threads[t]), HoldsBarrier(u.threads[t]), s.barrierMutex, u.barrierMutex, t)
    && LockFollows(HoldsCounter(s.threads[t]), HoldsCounter(u.threads[t]), s.counterMutex, u.counterMutex, t)
    && CounterFollows(s.threads[t], u.threads[t], s.counter, u.counter)
  }

  predicate IsOuterStep(step: Step) {
    step.EnterReading? || step.LeaveReading? || step.AskWriting? || step.LeaveWriting?
    || step.RaiseBarrier? || step.LowerBarrier?
  }

  lemma OuterStepIsLocal(s: State, step: Step)
    requires Enabled(s, step) && IsOuterStep(step)
    ensures Local(s, Apply(s, step), step.t)
  {
    assert s.threads == s.threads[step.t := s.threads[step.t]];
  }

  lemma InnerStepIsLocal(s: State, step: Step)
    requires Enabled(s, step) && !IsOuterStep(step)
    ensures Local(s, Apply(s, step), step.t)
  {
  }

  lemma StepIsLocal(s: State, step: Step)
    requires Enabled(s, step)
    ensures Local(s, Apply(s, step), step.t)
  {
    if IsOuterStep(step) {
      OuterStepIsLocal(s, step);
    } else {
      InnerStepIsLocal(s, step);
    }
  }

  lemma LocalKeepsExclusive(s: State, u: State, t: nat)
    requires Exclusive(s) && Local(s, u, t)
    ensures Exclusive(u)
  {
    Inside(s.threads, t);
    MoveCounts(s.threads, t, u.threads[t]);
  }

  lemma LocalKeepsMutexes(s: State, u: State, t: nat)
    requires MutexesHeld(s) && Local(s, u, t)
    ensures MutexesHeld(u)
  {
  }

  /** A step that leaves the flag alone commits a writer only while it is down. */
  lemma StepRespectsBarrier(s: State, step: Step)
    requires Enabled(s, step) && !step.RaiseBarrier? && !step.LowerBarrier?
    ensures var t, u := step.t, Apply(s, step);
            && u.flag == s.flag && u.epoch == s.epoch
            && (IsCommitted(u.threads[t]) ==> IsCommitted(s.threads[t]) || !s.flag)
            && (EpochOk(s.threads[t], s.epoch, s.flag) ==> EpochOk(u.threads[t], s.epoch, s.flag))
            && (u.barrierUp && !s.barrierUp ==>
                 s.threads[t] == RaisedHasCounter(s.epoch) && s.counter >= 0 && !IsWriter(u.threads[t]))
  {
  }

  lemma OtherStepKeepsBarrier(s: State, step: Step)
    requires Inv(s) && Enabled(s, step) && !step.RaiseBarrier? && !step.LowerBarrier?
    ensures BarrierWorks(Apply(s, step))
  {
    var t, u := step.t, Apply(s, step);
    StepIsLocal(s, step);
    StepRespectsBarrier(s, step);
    LocalKeepsExclusive(s, u, t);
    WriterIsCommittedOrInside(s, u, t);
  }

  /** A writer that comes inside was past the barrier test before. */
  lemma WriterIsCommittedOrInside(s: State, u: State, t: nat)
    requires Inv(s) && Local(s, u, t) && u.flag == s.flag
    requires IsCommitted(u.threads[t]) ==> IsCommitted(s.threads[t]) || !s.flag
    requires u.threads[t] == Writing ==> IsWriter(s.threads[t])
    ensures s.flag && Writers(s.threads) == 0 ==> Writers(u.threads) == 0
  {
    Inside(s.threads, t);
    MoveCounts(s.threads, t, u.threads[t]);
  }

  lemma RaiseKeepsBarrier(s: State, t: nat)
    requires Inv(s) && Enabled(s, RaiseBarrier(t))
    ensures BarrierWorks(Apply(s, RaiseBarrier(t)))
  {
    MoveCounts(s.threads, t, Raised(s.epoch));
  }

  lemma LowerKeepsBarrier(s: State, t: nat)
    requires Inv(s) && Enabled(s, LowerBarrier(t))
    ensures BarrierWorks(Apply(s, LowerBarrier(t)))
  {
  }

  lemma StepKeepsInv(s: State, step: Step)
    requires Inv(s) && Enabled(s, step)
    ensures Inv(Apply(s, step))
  {
    StepIsLocal(s, step);
    LocalKeepsExclusive(s, Apply(s, step), step.t);
    LocalKeepsMutexes(s, Apply(s, step), step.t);
    if step.RaiseBarrier? {
      RaiseKeepsBarrier(s, step.t);
    } else if step.LowerBarrier? {
      LowerKeepsBarrier(s, step.t);
    } else {
      OtherStepKeepsBarrier(s, step);
    }
  }

  lemma StartIsInv(n: nat)
    ensures Inv(Start(n)) && !Start(n).barrierUp
  {
    NobodyInside(n);
  }

  lemma {:induction false} NobodyInside(n: nat)
    ensures Readers(Start(n).threads) == 0 && Writers(Start(n).threads) == 0
  {
    if n != 0 {
      NobodyInside(n - 1);
      assert Start(n).threads[..n - 1] == Start(n - 1).threads;
    }
  }

  lemma {:induction false} RunKeepsInv(n: nat, steps: seq<Step>)
    ensures Inv(Exec(Start(n), steps))
    decreases |steps|
  {
    if steps == [] {
      StartIsInv(n);
    } else {
      var s, step := Exec(Start(n), steps[..|steps| - 1]), steps[|steps| - 1];
      RunKeepsInv(n, steps[..|steps| - 1]);
      if Enabled(s, step) {
        StepKeepsInv(s, step);
      }
    }
  }

  /** For any number of threads and in every interleaving. */
  lemma {:induction false} ReadersAndWriterExclude(n: nat, steps: seq<Step>)
    ensures Exclusive(Exec(Start(n), steps))
  {
    RunKeepsInv(n, steps);
  }

  lemma StepKeepsBarrierUp(s: State, step: Step)
    requires s.barrierUp && !step.LowerBarrier?
    ensures Apply(s, step).barrierUp
  {
  }

  /** From the return of a call that raises the barrier until it is lowered no writer
      is inside or becomes active, whatever the threads do, and the flag that turns
      new writers away stays up. */
  lemma BarrierKeepsWritersOut(n: nat, before: seq<Step>, after: seq<Step>)
    requires Exec(Start(n), before).barrierUp
    requires forall i :: 0 <= i < |after| ==> !after[i].LowerBarrier?
    ensures var s := Exec(Start(n), before + after);
            s.barrierUp && s.flag && Writers(s.threads) == 0 && s.counter >= 0
  {
    BarrierStaysUp(n, before, after);
    RunKeepsInv(n, before + after);
  }

  lemma {:induction false} BarrierStaysUp(n: nat, before: seq<Step>, after: seq<Step>)
    requires Exec(Start(n), before).barrierUp
    requires forall i :: 0 <= i < |after| ==> !after[i].LowerBarrier?
    ensures Exec(Start(n), before + after).barrierUp
    decreases |after|
  {
    if after == [] {
      assert before + after == before;
    } else {
      var init, last := after[..|after| - 1], after[|after| - 1];
      BarrierStaysUp(n, before, init);
      assert (before + after)[..|before + after| - 1] == before + init;
      StepKeepsBarrierUp(Exec(Start(n), before + init), last);
    }
  }

  /** A call that raises the barrier and finds it not lowered since returns with it
      up: this is what makes `barrierUp` mean what the caller relies on. */
  lemma RaisingReturnsWithBarrierUp(n: nat, steps: seq<Step>, t: nat)
    requires var s := Exec(Start(n), steps);
             t < |s.threads| && s.threads[t] == RaisedHasCounter(s.epoch) && s.counter >= 0
    ensures var s := Apply(Exec(Start(n), steps), TestCounter(t));
            s.threads[t] == Out && s.barrierUp && s.flag && Writers(s.threads) == 0
  {
    RunKeepsInv(n, steps);
    var s := Exec(Start(n), steps);
    StepKeepsInv(s, TestCounter(t));
  }

  // ------------------------------------------------------------ who is let in

  /** The flag as the run tells it: raised, and not lowered since. */
  predicate RaisedInRun(n: nat, steps: seq<Step>)
    decreases |steps|
  {
    if steps == [] then false
    else
      var init, last := steps[..|steps| - 1], steps[|steps| - 1];
      if last.RaiseBarrier? && Enabled(Exec(Start(n), init), last) then true
      else if last.LowerBarrier? && Enabled(Exec(Start(n), init), last) then false
      else RaisedInRun(n, init)
  }

  lemma {:induction false} FlagIsRaisedInRun(n: nat, steps: seq<Step>)
    ensures Exec(Start(n), steps).flag <==> RaisedInRun(n, steps)
    decreases |steps|
  {
    if steps != [] {
      FlagIsRaisedInRun(n, steps[..|steps| - 1]);
    }
  }

  /** In every run a reader is let in if and only if no writer is inside, and then one
      more reader is counted; one that is not let in changes nothing. */
  lemma {:induction false} WhenReaderEnters(n: nat, steps: seq<Step>, t: nat)
    requires Enabled(Exec(Start(n), steps), EnterReading(t))
    ensures var s, u := Exec(Start(n), steps), Exec(Start(n), steps + [EnterReading(t)]);
            if Writers(s.threads) == 0
            then u == s.(threads := s.threads[t := Reading], counter := s.counter + 1)
            else u == s
  {
    var s := Exec(Start(n), steps);
    RunKeepsInv(n, steps);
    assert (steps + [EnterReading(t)])[..|steps|] == steps;
    assert s.threads[t := Out] == s.threads;
  }

  /** In every run a writer that asks is turned away if and only if the barrier has been
      raised and not lowered since. */
  lemma {:induction false} WhenWriterIsTurnedAway(n: nat, steps: seq<Step>, t: nat)
    requires Enabled(Exec(Start(n), steps), TestBarrier(t))
    ensures var s, u := Exec(Start(n), steps), Exec(Start(n), steps + [TestBarrier(t)]);
            if RaisedInRun(n, steps)
            then u == s.(threads := s.threads[t := Out], barrierMutex := None)
            else u == s.(threads := s.threads[t := WantsCounter])
  {
    FlagIsRaisedInRun(n, steps);
    assert (steps + [TestBarrier(t)])[..|steps|] == steps;
  }

  /** In every run a writer that looks at the counter gets in if and only if nobody is
      inside, and waits without the counter's mutex otherwise; a thread that raises the
      barrier goes on if and only if no writer is inside. */
  lemma {:induction false} WhenCounterLetsIn(n: nat, steps: seq<Step>, t: nat)
    requires Enabled(Exec(Start(n), steps), TestCounter(t))
    ensures var s, u := Exec(Start(n), steps), Exec(Start(n), steps + [TestCounter(t)]);
            match s.threads[t]
            case RaisedHasCounter(e) =>
              && u.threads == s.threads[t := if Writers(s.threads) == 0 then Out else RaisedWaits(e)]
              && u.counterMutex == None && u.counter == s.counter && u.barrierMutex == s.barrierMutex
            case _ =>
              if Readers(s.threads) == 0 && Writers(s.threads) == 0
              then u == s.(threads := s.threads[t := GrantedLocked], counter := -1)
              else u == s.(threads := s.threads[t := WaitsCounter], counterMutex := None)
  {
    RunKeepsInv(n, steps);
    assert (steps + [TestCounter(t)])[..|steps|] == steps;
  }

  // --------------------------------------------------------------- coming and going

  lemma ExecTwo(n: nat, steps: seq<Step>, a: Step, b: Step)
    ensures Exec(Start(n), steps + [a] + [b]) == Apply(Apply(Exec(Start(n), steps), a), b)
  {
    assert (steps + [a])[..|steps|] == steps;
    assert (steps + [a] + [b])[..|steps + [a]|] == steps + [a];
  }

  lemma WriterAsks(s: State, t: nat)
    requires At(s, t, Out) && s.barrierMutex == None && !s.flag
    ensures Apply(Apply(s, AskWriting(t)), TestBarrier(t))
         == s.(threads := s.threads[t := WantsCounter], barrierMutex := Some(t))
  {
  }

  lemma WriterClaims(s: State, t: nat)
    requires At(s, t, WantsCounter) && s.counterMutex == None && s.counter == 0
    ensures Apply(Apply(s, LockCounter(t)), TestCounter(t))
         == s.(threads := s.threads[t := GrantedLocked], counterMutex := Some(t), counter := -1)
  {
  }

  lemma WriterUnlocks(s: State, t: nat)
    requires At(s, t, GrantedLocked)
    ensures Apply(Apply(s, UnlockCounter(t)), UnlockBarrier(t))
         == s.(threads := s.threads[t := Writing], counterMutex := None, barrierMutex := None)
  {
  }

  /** A writer can get in: it is out, the barrier is down, the mutexes are free and nobody
      is inside. */
  predicate IsOpen(n: nat, steps: seq<Step>, t: nat) {
    var s := Exec(Start(n), steps);
    && At(s, t, Out) && !RaisedInRun(n, steps) && s.barrierMutex == None && s.counterMutex == None
    && Readers(s.threads) == 0 && Writers(s.threads) == 0
  }

  lemma WriterHasAsked(n: nat, steps: seq<Step>, t: nat)
    requires IsOpen(n, steps, t)
    ensures var s := Exec(Start(n), steps);
            && Exec(Start(n), steps + [AskWriting(t)] + [TestBarrier(t)])
               == s.(threads := s.threads[t := WantsCounter], barrierMutex := Some(t))
            && s.counter == 0
  {
    RunKeepsInv(n, steps);
    FlagIsRaisedInRun(n, steps);
    ExecTwo(n, steps, AskWriting(t), TestBarrier(t));
    WriterAsks(Exec(Start(n), steps), t);
  }

  lemma WriterHasClaimed(n: nat, steps: seq<Step>, t: nat)
    requires IsOpen(n, steps, t)
    ensures var s := Exec(Start(n), steps);
            Exec(Start(n), steps + [AskWriting(t)] + [TestBarrier(t)] + [LockCounter(t)] + [TestCounter(t)])
            == s.(threads := s.threads[t := GrantedLocked], barrierMutex := Some(t), counterMutex := Some(t),
                  counter := -1)
  {
    var asked := steps + [AskWriting(t)] + [TestBarrier(t)];
    WriterHasAsked(n, steps, t);
    ExecTwo(n, asked, LockCounter(t), TestCounter(t));
    WriterClaims(Exec(Start(n), asked), t);
  }

  /** The steps by which a writer gets in. */
  function Entering(steps: seq<Step>, t: nat): seq<Step> {
    steps + [AskWriting(t)] + [TestBarrier(t)] + [LockCounter(t)] + [TestCounter(t)]
          + [UnlockCounter(t)] + [UnlockBarrier(t)]
  }

  /** In every run, while the barrier is down, both mutexes are free and nobody is inside, a
      writer gets in within six steps, and when it leaves everything is as it was. */
  lemma {:induction false} WriterComesAndGoes(n: nat, steps: seq<Step>, t: nat)
    requires IsOpen(n, steps, t)
    ensures var s := Exec(Start(n), steps);
            && Exec(Start(n), Entering(steps, t)) == s.(threads := s.threads[t := Writing], counter := -1)
            && Exec(Start(n), Entering(steps, t) + [LeaveWriting(t)]) == s
  {
    var claimed := steps + [AskWriting(t)] + [TestBarrier(t)] + [LockCounter(t)] + [TestCounter(t)];
    WriterHasClaimed(n, steps, t);
    ExecTwo(n, claimed, UnlockCounter(t), UnlockBarrier(t));
    WriterUnlocks(Exec(Start(n), claimed), t);
    WriterHasAsked(n, steps, t);
    WriterLeaves(n, steps, Entering(steps, t), t);
  }

  lemma WriterLeaves(n: nat, steps: seq<Step>, entered: seq<Step>, t: nat)
    requires var s := Exec(Start(n), steps);
             && At(s, t, Out) && s.counterMutex == None && s.counter == 0
             && Exec(Start(n), entered) == s.(threads := s.threads[t := Writing], counter := -1)
    ensures Exec(Start(n), entered + [LeaveWriting(t)]) == Exec(Start(n), steps)
  {
    var s := Exec(Start(n), steps);
    assert (entered + [LeaveWriting(t)])[..|entered|] == entered;
    assert s.threads[t := Writing][t := Out] == s.threads;
  }

  /** In every run a reader that comes in and leaves leaves everything as it was. */
  lemma {:induction false} ReaderComesAndGoes(n: nat, steps: seq<Step>, t: nat)
    requires Enabled(Exec(Start(n), steps), EnterReading(t)) && Writers(Exec(Start(n), steps).threads) == 0
    ensures Exec(Start(n), steps + [EnterReading(t)] + [LeaveReading(t)]) == Exec(Start(n), steps)
  {
    var s := Exec(Start(n), steps);
    WhenReaderEnters(n, steps, t);
    RunKeepsInv(n, steps);
    ExecTwo(n, steps, EnterReading(t), LeaveReading(t));
    assert s.threads[t := Reading][t := Out] == s.threads;
  }
}

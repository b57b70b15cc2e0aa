/**
 The DLOG pipeline and the two upload lists together.

 The DLOG thread settles each payload it has collected, and each bulk log it receives,
 before it takes another message: it may have to encrypt it for the cloud, checks the
 length of the list, and registers it.
 */
module DlogUpload {
  import opened Common
  import D = DlogPipeline
  import G = UploadProgress
  import L = UploadList
  import P = UploadProperties
  import U = UploadScheduler
  import X = UploadDelivery

  /** What has become of a payload or a bulk log. */
  datatype Fate =
    | Registered(cloud: bool, id: nat, data: seq<Byte>)
    | Refused(cloud: bool)     // the list was full
    | Unsealed                 // the encryption failed

  datatype State = State(
    pipe: D.State,
    local: U.State,
    cloud: U.State,
    // history
    fates: seq<Fate>,          // of the collected payloads, in order
    bulks: seq<Fate>)          // of the bulk logs

  datatype Step =
    | Pipe(step: D.Step)
    | Blob(cloud: bool, work: U.Step)
    | Offer(cloud: bool, sealed: Option<seq<Byte>>)      // `sealed`: what the encryption makes of it
    | OfferBulk(cloud: bool, bulk: Option<L.Log>)
    | Register(cloud: bool)

  function Start(cap: nat, timeout: int, maxLocal: nat, maxCloud: nat): State {
    State(D.Start(cap, timeout), U.Start(maxLocal), U.Start(maxCloud), [], [])
  }

  function ListOf(s: State, cloud: bool): U.State {
    if cloud then s.cloud else s.local
  }

  function WithList(s: State, cloud: bool, list: U.State): State {
    if cloud then s.(cloud := list) else s.(local := list)
  }

  /** The thread holds a collected payload. */
  predicate InHand(s: State) {
    |s.fates| < |s.pipe.collected|
  }

  predicate NoneChecked(s: State) {
    s.local.dlog == U.Waiting && s.cloud.dlog == U.Waiting
  }

  /** Steps of the DLOG thread that begin or end with waiting for a message. */
  predicate IsThreadStep(step: D.Step) {
    step.TickStep? || step.Receive? || step.RefuseEmpty? || step.Copy? || step.Clear?
  }

  /** A payload has no callback. */
  function PayloadLog(p: D.Payload, data: seq<Byte>): L.Log {
    L.Log(data, None, 0, p.critical)
  }

  ghost predicate Enabled(s: State, step: Step) {
    match step
    case Pipe(d) => IsThreadStep(d) ==> !InHand(s) && NoneChecked(s)
    case Blob(_, u) => !u.CheckRoom? && !u.Insert?
    case Offer(cloud, sealed) =>
      // Only what goes to the cloud is encrypted.
      InHand(s) && NoneChecked(s) && (!cloud ==> sealed == Some(s.pipe.collected[|s.fates|].bytes))
    case OfferBulk(_, _) => !InHand(s) && NoneChecked(s) && s.pipe.collector == D.Idle
    case Register(cloud) => ListOf(s, cloud).dlog.Checked?
  }

  function Settle(s: State, fate: Fate): State {
    if InHand(s) then s.(fates := s.fates + [fate]) else s.(bulks := s.bulks + [fate])
  }

  function Offered(s: State, cloud: bool, log: L.Log): State {
    var list := U.CheckedStep(ListOf(s, cloud), log);
    var t := WithList(s, cloud, list);
    if list.dlog == U.Waiting then Settle(t, Refused(cloud)) else t
  }

  function RegisteredStep(s: State, cloud: bool): State
    requires ListOf(s, cloud).dlog.Checked?
  {
    var list := ListOf(s, cloud);
    Settle(WithList(s, cloud, U.InsertedStep(list)), Registered(cloud, |list.registered|, list.dlog.log.data))
  }

  ghost function Apply(s: State, step: Step): (t: State)
    requires s.pipe.planes.WellFormed() && |s.pipe.logs| == 2
    ensures t.pipe.planes.WellFormed() && |t.pipe.logs| == 2
  {
    if !Enabled(s, step) then s else
    match step
    case Pipe(d) => s.(pipe := D.Apply(s.pipe, d))
    case Blob(cloud, u) => WithList(s, cloud, U.Apply(ListOf(s, cloud), u))
    case Offer(cloud, sealed) =>
      (match sealed
       case None => Settle(s, Unsealed)
       case Some(data) => Offered(s, cloud, PayloadLog(s.pipe.collected[|s.fates|], data)))
    case OfferBulk(cloud, sealed) =>
      (match sealed
       case None => Settle(s, Unsealed)
       case Some(log) => Offered(s, cloud, log))
    case Register(cloud) => RegisteredStep(s, cloud)
  }

  ghost function Exec(s: State, steps: seq<Step>): (t: State)
    requires s.pipe.planes.WellFormed() && |s.pipe.logs| == 2
    ensures t.pipe.planes.WellFormed() && |t.pipe.logs| == 2
    decreases |steps|
  {
    if steps == [] then s else Apply(Exec(s, steps[..|steps| - 1]), steps[|steps| - 1])
  }

  // ------------------------------------------------------ the parts run as before

  /** The run of the pipeline inside a run. */
  ghost function PipeRun(s: State, steps: seq<Step>): seq<D.Step>
    requires s.pipe.planes.WellFormed() && |s.pipe.logs| == 2
    decreases |steps|
  {
    if steps == [] then []
    else
      var init, last := steps[..|steps| - 1], steps[|steps| - 1];
      PipeRun(s, init) + if last.Pipe? && Enabled(Exec(s, init), last) then [last.step] else []
  }

  /** The step that one of the lists takes in a step. */
  ghost function ListStep(s: State, step: Step, cloud: bool): seq<U.Step> {
    if !Enabled(s, step) then []
    else
      match step
      case Pipe(_) => []
      case Blob(c, u) => if c == cloud then [u] else []
      case Offer(c, sealed) =>
        if c == cloud && sealed.Some?
        then [U.CheckRoom(PayloadLog(s.pipe.collected[|s.fates|], sealed.value))] else []
      case OfferBulk(c, sealed) => if c == cloud && sealed.Some? then [U.CheckRoom(sealed.value)] else []
      case Register(c) => if c == cloud then [U.Insert] else []
  }

  ghost function ListRun(s: State, steps: seq<Step>, cloud: bool): seq<U.Step>
    requires s.pipe.planes.WellFormed() && |s.pipe.logs| == 2
    decreases |steps|
  {
    if steps == [] then []
    else
      var init := steps[..|steps| - 1];
      ListRun(s, init, cloud) + ListStep(Exec(s, init), steps[|steps| - 1], cloud)
  }

  lemma PipeTakesStep(s: State, step: Step)
    requires s.pipe.planes.WellFormed() && |s.pipe.logs| == 2
    ensures Apply(s, step).pipe == if step.Pipe? && Enabled(s, step) then D.Apply(s.pipe, step.step) else s.pipe
  {
  }

  lemma ListGoesOn(start: U.State, run: seq<U.Step>, taken: seq<U.Step>, s: U.State, t: U.State)
    requires s == U.Exec(start, run)
    requires (taken == [] && t == s) || (|taken| == 1 && t == U.Apply(s, taken[0]))
    ensures t == U.Exec(start, run + taken)
  {
    if taken == [] {
      assert run + taken == run;
    } else {
      G.ExecSnoc(start, run, taken[0]);
      assert taken == [taken[0]];
    }
  }

  lemma PipeRunNext(s: State, steps: seq<Step>)
    requires s.pipe.planes.WellFormed() && |s.pipe.logs| == 2 && steps != []
    ensures var init, last := steps[..|steps| - 1], steps[|steps| - 1];
            var t := Exec(s, init);
            if last.Pipe? && Enabled(t, last)
            then
              && Exec(s, steps).pipe == D.Apply(t.pipe, last.step)
              && PipeRun(s, steps) == PipeRun(s, init) + [last.step]
            else Exec(s, steps).pipe == t.pipe && PipeRun(s, steps) == PipeRun(s, init)
  {
    PipeTakesStep(Exec(s, steps[..|steps| - 1]), steps[|steps| - 1]);
  }

  lemma {:induction false} PipeRuns(cap: nat, timeout: int, maxLocal: nat, maxCloud: nat, steps: seq<Step>)
    ensures var s := Start(cap, timeout, maxLocal, maxCloud);
            Exec(s, steps).pipe == D.Exec(D.Start(cap, timeout), PipeRun(s, steps))
    decreases |steps|
  {
    if steps != [] {
      var s, init, last := Start(cap, timeout, maxLocal, maxCloud), steps[..|steps| - 1], steps[|steps| - 1];
      PipeRuns(cap, timeout, maxLocal, maxCloud, init);
      PipeRunNext(s, steps);
      if last.Pipe? && Enabled(Exec(s, init), last) {
        D.ExecSnoc(D.Start(cap, timeout), PipeRun(s, init), last.step);
      }
    }
  }

  lemma ListTakesStep(s: State, step: Step, cloud: bool)
    requires s.pipe.planes.WellFormed() && |s.pipe.logs| == 2
    ensures var t := ListOf(Apply(s, step), cloud);
            if ListStep(s, step, cloud) == [] then t == ListOf(s, cloud)
            else t == U.Apply(ListOf(s, cloud), ListStep(s, step, cloud)[0]) && |ListStep(s, step, cloud)| == 1
  {
  }

  lemma {:induction false} ListRuns(cap: nat, timeout: int, maxLocal: nat, maxCloud: nat, steps: seq<Step>, cloud: bool)
    ensures var s := Start(cap, timeout, maxLocal, maxCloud);
            ListOf(Exec(s, steps), cloud)
            == U.Exec(U.Start(if cloud then maxCloud else maxLocal), ListRun(s, steps, cloud))
    decreases |steps|
  {
    if steps != [] {
      var s, init, last := Start(cap, timeout, maxLocal, maxCloud), steps[..|steps| - 1], steps[|steps| - 1];
      var list := U.Start(if cloud then maxCloud else maxLocal);
      var taken := ListStep(Exec(s, init), last, cloud);
      ListRuns(cap, timeout, maxLocal, maxCloud, init, cloud);
      ListTakesStep(Exec(s, init), last, cloud);
      ListGoesOn(list, ListRun(s, init, cloud), taken, ListOf(Exec(s, init), cloud), ListOf(Exec(s, steps), cloud));
    }
  }

  // ------------------------------------------------------------------- invariants

  function CountRegistered(fates: seq<Fate>, cloud: bool): nat {
    if fates == [] then 0
    else
      var f := fates[|fates| - 1];
      CountRegistered(fates[..|fates| - 1], cloud) + if f.Registered? && f.cloud == cloud then 1 else 0
  }

  function CountRefused(fates: seq<Fate>, cloud: bool): nat {
    if fates == [] then 0
    else CountRefused(fates[..|fates| - 1], cloud) + if fates[|fates| - 1] == Refused(cloud) then 1 else 0
  }

  /** The log is the payload's: critical if the payload is, without a callback, with the
      payload's bytes in the local list and the encrypted ones in the cloud's. */
  predicate IsLogOf(log: L.Log, p: D.Payload, cloud: bool) {
    log.critical == p.critical && log.callback == None && log.userData == 0 && (!cloud ==> log.data == p.bytes)
  }

  ghost predicate FatesOk(fates: seq<Fate>, collected: seq<D.Payload>, registered: seq<L.Log>, cloud: bool)
    requires |fates| <= |collected|
  {
    && (forall k :: 0 <= k < |fates| && fates[k].Registered? && fates[k].cloud == cloud ==>
          && fates[k].id < |registered| && registered[fates[k].id].data == fates[k].data
          && IsLogOf(registered[fates[k].id], collected[k], cloud))
    && (forall j, k :: 0 <= j < k < |fates|
                       && fates[j].Registered? && fates[j].cloud == cloud
                       && fates[k].Registered? && fates[k].cloud == cloud ==>
          fates[j].id < fates[k].id)
  }

  ghost predicate ListSettled(s: State, cloud: bool)
    requires |s.fates| <= |s.pipe.collected|
  {
    var list := ListOf(s, cloud);
    && FatesOk(s.fates, s.pipe.collected, list.registered, cloud)
    && (list.dlog.Checked? && InHand(s) ==> IsLogOf(list.dlog.log, s.pipe.collected[|s.fates|], cloud))
    && |list.registered| == CountRegistered(s.fates, cloud) + CountRegistered(s.bulks, cloud)
    && |list.refused| == CountRefused(s.fates, cloud) + CountRefused(s.bulks, cloud)
  }

  ghost predicate Settled(s: State) {
    && s.pipe.planes.WellFormed() && |s.pipe.logs| == 2
    && |s.fates| <= |s.pipe.collected| <= |s.fates| + 1
    && (s.local.dlog == U.Waiting || s.cloud.dlog == U.Waiting)
    && ListSettled(s, false) && ListSettled(s, true)
  }

  lemma CountNext(fates: seq<Fate>, f: Fate, cloud: bool)
    ensures CountRegistered(fates + [f], cloud)
         == CountRegistered(fates, cloud) + if f.Registered? && f.cloud == cloud then 1 else 0
    ensures CountRefused(fates + [f], cloud) == CountRefused(fates, cloud) + if f == Refused(cloud) then 1 else 0
  {
    assert (fates + [f])[..|fates|] == fates;
  }

  // -- the pipeline's steps

  lemma PipeCollects(s: D.State, step: D.Step)
    requires s.planes.WellFormed() && |s.logs| == 2
    ensures var t := D.Apply(s, step);
            t.collected == s.collected
            || (step.Clear? && s.collector.Copied? && t.collected == s.collected + [s.collector.payload])
  {
  }

  lemma CollectingKeepsFates(fates: seq<Fate>, collected: seq<D.Payload>, p: D.Payload,
                             registered: seq<L.Log>, cloud: bool)
    requires |fates| <= |collected| && FatesOk(fates, collected, registered, cloud)
    ensures FatesOk(fates, collected + [p], registered, cloud)
  {
  }

  lemma PipeKeepsSettled(s: State, step: D.Step)
    requires Settled(s) && Enabled(s, Pipe(step))
    ensures Settled(Apply(s, Pipe(step)))
  {
    PipeCollects(s.pipe, step);
    if D.Apply(s.pipe, step).collected != s.pipe.collected {
      CollectingKeepsFates(s.fates, s.pipe.collected, s.pipe.collector.payload, s.local.registered, false);
      CollectingKeepsFates(s.fates, s.pipe.collected, s.pipe.collector.payload, s.cloud.registered, true);
    }
  }

  // -- the blob thread's steps

  lemma BlobSpares(list: U.State, step: U.Step)
    requires !step.CheckRoom? && !step.Insert?
    ensures var t := U.Apply(list, step);
            t.registered == list.registered && t.refused == list.refused && t.dlog == list.dlog
  {
  }

  lemma BlobKeepsSettled(s: State, cloud: bool, step: U.Step)
    requires Settled(s) && !step.CheckRoom? && !step.Insert?
    ensures Settled(WithList(s, cloud, U.Apply(ListOf(s, cloud), step)))
  {
    BlobSpares(ListOf(s, cloud), step);
  }

  // -- the DLOG thread's steps on the lists

  lemma UnsealedKeepsSettled(s: State)
    requires Settled(s) && NoneChecked(s)
    ensures Settled(Settle(s, Unsealed))
  {
    var fates := if InHand(s) then s.fates else s.bulks;
    CountNext(fates, Unsealed, false);
    CountNext(fates, Unsealed, true);
  }

  lemma RefusedKeepsSettled(s: State, cloud: bool, log: L.Log)
    requires Settled(s) && NoneChecked(s)
    ensures var list := ListOf(s, cloud);
            Settled(Settle(WithList(s, cloud, list.(refused := list.refused + [log])), Refused(cloud)))
  {
    var fates := if InHand(s) then s.fates else s.bulks;
    CountNext(fates, Refused(cloud), false);
    CountNext(fates, Refused(cloud), true);
  }

  lemma OfferKeepsSettled(s: State, cloud: bool, log: L.Log)
    requires Settled(s) && NoneChecked(s)
    requires InHand(s) ==> IsLogOf(log, s.pipe.collected[|s.fates|], cloud)
    ensures Settled(Offered(s, cloud, log))
  {
    var list := ListOf(s, cloud);
    if |list.entries| >= list.max {
      RefusedKeepsSettled(s, cloud, log);
    }
  }

  lemma InsertedFatesOk(fates: seq<Fate>, collected: seq<D.Payload>, registered: seq<L.Log>, log: L.Log, cloud: bool)
    requires |fates| <= |collected| && FatesOk(fates, collected, registered, cloud)
    ensures FatesOk(fates, collected, registered + [log], cloud)
    ensures |fates| < |collected| && IsLogOf(log, collected[|fates|], cloud) ==>
              FatesOk(fates + [Registered(cloud, |registered|, log.data)], collected, registered + [log], cloud)
  {
  }

  lemma OtherFatesOk(fates: seq<Fate>, f: Fate, collected: seq<D.Payload>, registered: seq<L.Log>, cloud: bool)
    requires |fates| < |collected| && FatesOk(fates, collected, registered, cloud)
    requires f.Registered? ==> f.cloud != cloud
    ensures FatesOk(fates + [f], collected, registered, cloud)
  {
  }

  lemma RegisterSettlesOwn(s: State, cloud: bool)
    requires Settled(s) && ListOf(s, cloud).dlog.Checked?
    ensures var t := RegisteredStep(s, cloud); |t.fates| <= |t.pipe.collected| && ListSettled(t, cloud)
  {
    var list := ListOf(s, cloud);
    InsertedFatesOk(s.fates, s.pipe.collected, list.registered, list.dlog.log, cloud);
    CountNext(if InHand(s) then s.fates else s.bulks, Registered(cloud, |list.registered|, list.dlog.log.data), cloud);
  }

  lemma RegisterSettlesOther(s: State, cloud: bool)
    requires Settled(s) && ListOf(s, cloud).dlog.Checked?
    ensures var t := RegisteredStep(s, cloud); |t.fates| <= |t.pipe.collected| && ListSettled(t, !cloud)
  {
    var list := ListOf(s, cloud);
    var f := Registered(cloud, |list.registered|, list.dlog.log.data);
    CountNext(if InHand(s) then s.fates else s.bulks, f, !cloud);
    if InHand(s) {
      OtherFatesOk(s.fates, f, s.pipe.collected, ListOf(s, !cloud).registered, !cloud);
    }
  }

  lemma RegisterKeepsSettled(s: State, cloud: bool)
    requires Settled(s) && ListOf(s, cloud).dlog.Checked?
    ensures Settled(RegisteredStep(s, cloud))
  {
    RegisterSettlesOwn(s, cloud);
    RegisterSettlesOther(s, cloud);
  }

  lemma StepKeepsSettled(s: State, step: Step)
    requires Settled(s)
    ensures Settled(Apply(s, step))
  {
    if Enabled(s, step) {
      match step
      case Pipe(d) => PipeKeepsSettled(s, d);
      case Blob(cloud, u) => BlobKeepsSettled(s, cloud, u);
      case Offer(cloud, sealed) =>
        if sealed.None? {
          UnsealedKeepsSettled(s);
        } else {
          OfferKeepsSettled(s, cloud, PayloadLog(s.pipe.collected[|s.fates|], sealed.value));
        }
      case OfferBulk(cloud, sealed) =>
        if sealed.None? {
          UnsealedKeepsSettled(s);
        } else {
          OfferKeepsSettled(s, cloud, sealed.value);
        }
      case Register(cloud) => RegisterKeepsSettled(s, cloud);
    }
  }

  lemma {:induction false} RunIsSettled(cap: nat, timeout: int, maxLocal: nat, maxCloud: nat, steps: seq<Step>)
    ensures Settled(Exec(Start(cap, timeout, maxLocal, maxCloud), steps))
    decreases |steps|
  {
    if steps != [] {
      RunIsSettled(cap, timeout, maxLocal, maxCloud, steps[..|steps| - 1]);
      StepKeepsSettled(Exec(Start(cap, timeout, maxLocal, maxCloud), steps[..|steps| - 1]), steps[|steps| - 1]);
    }
  }

  // -------------------------------------------------------------------- theorems

  /** In every run each collected payload but the one in hand has exactly one fate: it
      is registered in one list, with its own bytes in the local one, or it was refused
      by a full list, or its encryption failed.  No two payloads share an entry, entries
      come in the order of collection, and every entry and every refusal belongs to a
      payload or a bulk log. */
  lemma {:induction false} EveryPayloadHasOneFate(cap: nat, timeout: int, maxLocal: nat, maxCloud: nat,
                                                  steps: seq<Step>, cloud: bool)
    ensures var s := Exec(Start(cap, timeout, maxLocal, maxCloud), steps);
            var list := ListOf(s, cloud);
            && |s.fates| <= |s.pipe.collected| <= |s.fates| + 1
            && FatesOk(s.fates, s.pipe.collected, list.registered, cloud)
            && |list.registered| == CountRegistered(s.fates, cloud) + CountRegistered(s.bulks, cloud)
            && |list.refused| == CountRefused(s.fates, cloud) + CountRefused(s.bulks, cloud)
  {
    RunIsSettled(cap, timeout, maxLocal, maxCloud, steps);
  }

  /** The fate of the payload that was in hand in `s`, once the list has been checked. */
  ghost predicate Bound(s: State, t: State, cloud: bool, full: bool) {
    && s.fates <= t.fates && s.pipe.collected <= t.pipe.collected
    && if |t.fates| == |s.fates| then !full && InHand(t) && ListOf(t, cloud).dlog.Checked?
       else if full then t.fates[|s.fates|] == Refused(cloud)
       else t.fates[|s.fates|].Registered? && t.fates[|s.fates|].cloud == cloud
  }

  lemma OfferBinds(s: State, cloud: bool, data: seq<Byte>)
    requires Settled(s) && Enabled(s, Offer(cloud, Some(data)))
    ensures var list := ListOf(s, cloud);
            Bound(s, Apply(s, Offer(cloud, Some(data))), cloud, |list.entries| >= list.max)
  {
  }

  lemma StepKeepsChecked(t: State, step: Step, cloud: bool)
    requires Settled(t) && InHand(t) && ListOf(t, cloud).dlog.Checked?
    ensures var u := Apply(t, step);
            if step == Register(cloud)
            then u.fates == t.fates + [Registered(cloud, |ListOf(t, cloud).registered|, ListOf(t, cloud).dlog.log.data)]
                 && u.pipe == t.pipe
            else u.fates == t.fates && t.pipe.collected <= u.pipe.collected && ListOf(u, cloud).dlog.Checked?
  {
    if step.Pipe? {
      PipeCollects(t.pipe, step.step);
    } else if step.Blob? && Enabled(t, step) {
      BlobSpares(ListOf(t, step.cloud), step.work);
    }
  }

  lemma FatesGrow(t: State, step: Step)
    requires t.pipe.planes.WellFormed() && |t.pipe.logs| == 2
    ensures var u := Apply(t, step); t.fates <= u.fates && t.pipe.collected <= u.pipe.collected
  {
    if step.Pipe? {
      PipeCollects(t.pipe, step.step);
    }
  }

  lemma StepKeepsBound(s: State, t: State, step: Step, cloud: bool, full: bool)
    requires Settled(t) && Bound(s, t, cloud, full)
    ensures Bound(s, Apply(t, step), cloud, full)
  {
    FatesGrow(t, step);
    if |t.fates| == |s.fates| {
      StepKeepsChecked(t, step, cloud);
    }
  }

  lemma {:induction false} RunKeepsBound(s: State, t: State, cloud: bool, full: bool, steps: seq<Step>)
    requires Settled(t) && Bound(s, t, cloud, full)
    ensures Settled(Exec(t, steps)) && Bound(s, Exec(t, steps), cloud, full)
    decreases |steps|
  {
    if steps != [] {
      var init, last := steps[..|steps| - 1], steps[|steps| - 1];
      RunKeepsBound(s, t, cloud, full, init);
      StepKeepsBound(s, Exec(t, init), last, cloud, full);
      StepKeepsSettled(Exec(t, init), last);
    }
  }

  lemma {:induction false} ExecConcat(s: State, a: seq<Step>, b: seq<Step>)
    requires s.pipe.planes.WellFormed() && |s.pipe.logs| == 2
    ensures Exec(s, a + b) == Exec(Exec(s, a), b)
    decreases |b|
  {
    if b == [] {
      assert a + b == a;
    } else {
      ExecConcat(s, a, b[..|b| - 1]);
      assert (a + b)[..|a + b| - 1] == a + b[..|b| - 1];
    }
  }

  /** Which fate it is, in every run and whatever comes between the check and the
      registration: a payload whose encryption did not fail is refused if and only if
      its list was full when it was checked, and registered in that list otherwise. */
  lemma {:induction false} WhenPayloadIsRefused(cap: nat, timeout: int, maxLocal: nat, maxCloud: nat,
                                                before: seq<Step>, cloud: bool, data: seq<Byte>, after: seq<Step>)
    requires Enabled(Exec(Start(cap, timeout, maxLocal, maxCloud), before), Offer(cloud, Some(data)))
    ensures var s := Exec(Start(cap, timeout, maxLocal, maxCloud), before);
            var t := Exec(Start(cap, timeout, maxLocal, maxCloud), before + [Offer(cloud, Some(data))] + after);
            var k, list := |s.fates|, ListOf(s, cloud);
            k < |t.fates| ==>
              if |list.entries| >= list.max then t.fates[k] == Refused(cloud)
              else t.fates[k].Registered? && t.fates[k].cloud == cloud
  {
    var start, offer := Start(cap, timeout, maxLocal, maxCloud), Offer(cloud, Some(data));
    var s := Exec(start, before);
    RunIsSettled(cap, timeout, maxLocal, maxCloud, before);
    OfferBinds(s, cloud, data);
    StepKeepsSettled(s, offer);
    RunKeepsBound(s, Apply(s, offer), cloud, |ListOf(s, cloud).entries| >= ListOf(s, cloud).max, after);
    assert (before + [offer])[..|before|] == before;
    ExecConcat(start, before + [offer], after);
  }

  /** From end to end, without an overrun: the bytes of the accepted logs are, in order,
      those of the collected payloads, of the pending plane and of the current one. */
  lemma {:induction false} LogsReachPayloads(cap: nat, timeout: int, maxLocal: nat, maxCloud: nat, steps: seq<Step>)
    requires !Exec(Start(cap, timeout, maxLocal, maxCloud), steps).pipe.overrun
    ensures D.Lossless(Exec(Start(cap, timeout, maxLocal, maxCloud), steps).pipe)
  {
    PipeRuns(cap, timeout, maxLocal, maxCloud, steps);
    D.NothingIsLost(cap, timeout, PipeRun(Start(cap, timeout, maxLocal, maxCloud), steps));
  }

  lemma RetiredIsFate(s: State, k: nat, i: nat, cloud: bool)
    requires Settled(s) && k < |s.fates| && s.fates[k].Registered? && s.fates[k].cloud == cloud
    requires var list := ListOf(s, cloud);
             && i < |list.retired| && list.retired[i].id == s.fates[k].id
             && list.retired[i].id < |list.registered| && list.retired[i].log == list.registered[list.retired[i].id]
    ensures IsLogOf(ListOf(s, cloud).retired[i].log, s.pipe.collected[k], cloud)
  {
  }

  /** And from a payload to the agent: if the processing of its list has not failed and
      the entry of payload `k` has left the list, then it was delivered exactly once, or
      it failed three times; whatever was delivered is a prefix of the payload, of its
      own bytes in the local list, and critical as the payload is. */
  lemma {:induction false} PayloadReachesAgent(cap: nat, timeout: int, maxLocal: nat, maxCloud: nat, steps: seq<Step>,
                                               cloud: bool, k: nat, i: nat)
    requires var s := Exec(Start(cap, timeout, maxLocal, maxCloud), steps);
             var list := ListOf(s, cloud);
             && !list.faults
             && k < |s.fates| && s.fates[k].Registered? && s.fates[k].cloud == cloud
             && i < |list.retired| && list.retired[i].id == s.fates[k].id
    ensures var s := Exec(Start(cap, timeout, maxLocal, maxCloud), steps);
            var list := ListOf(s, cloud);
            var r := list.retired[i];
            && k < |s.pipe.collected| && IsLogOf(r.log, s.pipe.collected[k], cloud)
            && X.CountFor(list.deliveries, r.id) == (if r.retries < L.MAX_RETRY then 1 else 0)
            && forall j :: 0 <= j < |list.deliveries| && list.deliveries[j].id == r.id ==>
                 list.deliveries[j].bytes <= r.log.data
  {
    var start := Start(cap, timeout, maxLocal, maxCloud);
    RunIsSettled(cap, timeout, maxLocal, maxCloud, steps);
    ListRuns(cap, timeout, maxLocal, maxCloud, steps, cloud);
    X.RetiredWasDeliveredOrFailed(if cloud then maxCloud else maxLocal, ListRun(start, steps, cloud), i);
    RetiredIsFate(Exec(start, steps), k, i, cloud);
  }
}

/**
 The cached parameters and the parameter storage over whole runs.

 Writers are let in one at a time.  A forced set saves first and then, outside the
 storage, changes the cache; the notifier, after a synchronization, copies the cache
 and then saves the copy.  A factory reset can come between the two parts of either.
 */
module ClockStorage {
  import opened Common
  import opened ClockParams

  /** A forced set that has saved and has yet to change the cache. */
  datatype Forced = Forced(data: Params, mask: Mask)

  datatype State = State(
    cache: Params,
    store: Store,
    forced: Option<Forced>,    // at most one writer is inside
    copy: Option<Params>,      // what the notifier is about to save
    reloads: nat)

  /** `entered`: whether the gate and the barrier let the writer in.  A save that fails
      may leave anything in the storage. */
  datatype Op =
    | Set(data: Params, mask: Mask, entered: bool)
    | SetForcibly(data: Params, mask: Mask, entered: bool, saved: bool, otherwise: Store)
    | Substitute                                   // the forced set goes on
    | FactoryReset(store: Store)
    | CopyCache                                    // the notifier, after a synchronization ...
    | SaveCopy(saved: bool, otherwise: Store)      // ... saves all parameters
    | Get(loadable: bool)

  const ALL := Mask(true, true, [true, true, true, true, true, true, true, true, true])

  predicate LetIn(s: State, entered: bool) {
    entered && s.forced.None?
  }

  function SetParams(cfg: Config, s: State, data: Params, mask: Mask, entered: bool): (State, Result) {
    if !LetIn(s, entered) then (s, InternalError)
    else if !CheckParam(cfg, data, mask) then (s, ParamError)
    else (s.(cache := Substituted(cfg, s.cache, Converted(data), mask)), Success)
  }

  /** The first part of a forced set; after Success it goes on. */
  function SaveForced(cfg: Config, s: State, data: Params, mask: Mask, entered: bool, saved: bool,
                      otherwise: Store): (State, Result)
  {
    if !LetIn(s, entered) then (s, InternalError)
    else if !CheckParam(cfg, data, mask) then (s, ParamError)
    else if !saved then (s.(store := otherwise), InternalError)
    else
      (s.(store := SavedTo(s.store, NamesRepaired(cfg, Converted(data)), mask), forced := Some(Forced(data, mask))),
       Success)
  }

  function SubstituteForced(cfg: Config, s: State): State {
    match s.forced
    case None => s
    case Some(f) => s.(cache := Substituted(cfg, s.cache, Converted(f.data), f.mask), forced := None)
  }

  function SaveCopied(s: State, saved: bool, otherwise: Store): State {
    match s.copy
    case None => s
    case Some(p) => s.(store := if saved then SavedTo(s.store, p, ALL) else otherwise, copy := None)
  }

  function Apply(cfg: Config, s: State, op: Op): State {
    match op
    case Set(data, mask, entered) => SetParams(cfg, s, data, mask, entered).0
    case SetForcibly(data, mask, entered, saved, otherwise) =>
      SaveForced(cfg, s, data, mask, entered, saved, otherwise).0
    case Substitute => SubstituteForced(cfg, s)
    case FactoryReset(store) => s.(cache := Reset(cfg, s.cache), store := store)
    case CopyCache => if s.copy.None? then s.(copy := Some(s.cache)) else s
    case SaveCopy(saved, otherwise) => SaveCopied(s, saved, otherwise)
    case Get(loadable) =>
      if NeedsReload(s.cache) then s.(cache := LoadedFrom(cfg, loadable, s.store), reloads := s.reloads + 1)
      else s
  }

  /** From initialization: a load, then any sequence of operations. */
  function Exec(cfg: Config, loadable: bool, store: Store, ops: seq<Op>): State
    decreases |ops|
  {
    if ops == [] then State(LoadedFrom(cfg, loadable, store), store, None, None, 0)
    else Apply(cfg, Exec(cfg, loadable, store, ops[..|ops| - 1]), ops[|ops| - 1])
  }

  // -------------------------------------------------------------------- validity

  ghost predicate ValidCache(cfg: Config, p: Params) {
    && 0 < |p.hostname| < NAME_SIZE && GoodName(p.hostname2)
    && forall i :: 0 <= i < ITEMS ==> cfg.InRange(i, p.values[i])
  }

  lemma LoadIsValid(cfg: Config, ok: bool, store: Store)
    requires cfg.Ok()
    ensures ValidCache(cfg, LoadedFrom(cfg, ok, store))
  {
  }

  /** The conversion changes nothing that the check lets through. */
  lemma ConversionKeepsChecked(cfg: Config, data: Params, mask: Mask)
    requires cfg.Ok() && CheckParam(cfg, data, mask)
    ensures forall i :: 0 <= i < ITEMS && mask.values[i] ==> Converted(data).values[i] == data.values[i]
  {
    assert forall i :: i in {SKIP_TYPE, SLEW_TYPE} && mask.values[i] ==> cfg.InRange(i, data.values[i]);
  }

  lemma SubstitutionIsValid(cfg: Config, cache: Params, data: Params, mask: Mask)
    requires cfg.Ok() && ValidCache(cfg, cache) && CheckParam(cfg, data, mask)
    ensures ValidCache(cfg, Substituted(cfg, cache, Converted(data), mask))
  {
    ConversionKeepsChecked(cfg, data, mask);
  }

  lemma ValidNeedsNoReload(cfg: Config, p: Params)
    requires cfg.Ok() && ValidCache(cfg, p)
    ensures !NeedsReload(p)
  {
    assert forall i :: 0 <= i < ITEMS ==> p.values[i] >= 0;
    assert cfg.InRange(SKIP_TYPE, p.values[SKIP_TYPE]) && cfg.InRange(SLEW_TYPE, p.values[SLEW_TYPE]);
    assert SKIP_TYPE in {SKIP_TYPE, SLEW_TYPE} && SLEW_TYPE in {SKIP_TYPE, SLEW_TYPE};
  }

  /** What the cache, a forced set on its way and a copy hold has been checked. */
  ghost predicate Checked(cfg: Config, s: State) {
    && ValidCache(cfg, s.cache)
    && (s.forced.Some? ==> CheckParam(cfg, s.forced.value.data, s.forced.value.mask))
    && (s.copy.Some? ==> ValidCache(cfg, s.copy.value))
  }

  lemma StepKeepsChecked(cfg: Config, s: State, op: Op)
    requires cfg.Ok() && Checked(cfg, s)
    ensures Checked(cfg, Apply(cfg, s, op)) && Apply(cfg, s, op).reloads == s.reloads
  {
    ValidNeedsNoReload(cfg, s.cache);
    if op.Set? && CheckParam(cfg, op.data, op.mask) {
      SubstitutionIsValid(cfg, s.cache, op.data, op.mask);
    } else if op.Substitute? && s.forced.Some? {
      SubstitutionIsValid(cfg, s.cache, s.forced.value.data, s.forced.value.mask);
    }
  }

  lemma {:induction false} RunIsChecked(cfg: Config, loadable: bool, store: Store, ops: seq<Op>)
    requires cfg.Ok()
    ensures var s := Exec(cfg, loadable, store, ops); Checked(cfg, s) && s.reloads == 0
    decreases |ops|
  {
    if ops == [] {
      LoadIsValid(cfg, loadable, store);
    } else {
      RunIsChecked(cfg, loadable, store, ops[..|ops| - 1]);
      StepKeepsChecked(cfg, Exec(cfg, loadable, store, ops[..|ops| - 1]), ops[|ops| - 1]);
    }
  }

  /** The cache is valid after any sequence of operations, whatever the storage held,
      so the branch that loads it again is never taken. */
  lemma {:induction false} CacheStaysValid(cfg: Config, loadable: bool, store: Store, ops: seq<Op>)
    requires cfg.Ok()
    ensures var s := Exec(cfg, loadable, store, ops); ValidCache(cfg, s.cache) && s.reloads == 0
  {
    RunIsChecked(cfg, loadable, store, ops);
  }

  // ------------------------------------------------------ parameter by parameter

  datatype Item = Server | Second | Number(n: nat)

  datatype Value = Name(name: string) | Num(num: int)

  predicate IsItem(item: Item) {
    item.Number? ==> item.n < ITEMS
  }

  function ValueIn(p: Params, item: Item): Value
    requires IsItem(item)
  {
    match item case Server => Name(p.hostname) case Second => Name(p.hostname2) case Number(n) => Num(p.values[n])
  }

  function RecordIn(store: Store, item: Item): Option<Value>
    requires IsItem(item)
  {
    match item
    case Server => Some(Name(store.hostname))
    case Second => Some(Name(store.hostname2))
    case Number(n) => match store.values[n] case None => None case Some(v) => Some(Num(v))
  }

  predicate Masks(mask: Mask, item: Item)
    requires IsItem(item)
  {
    match item case Server => mask.hostname case Second => mask.hostname2 case Number(n) => mask.values[n]
  }

  /** What a caller asks for: an empty server name stands for the default server. */
  function Given(cfg: Config, data: Params, item: Item): Value
    requires IsItem(item)
  {
    if item == Server && data.hostname == "" then Name(cfg.server) else ValueIn(data, item)
  }

  /** Every masked name has fewer than 256 characters, and every masked number lies in
      its range. */
  predicate InBounds(cfg: Config, data: Params, mask: Mask) {
    && (mask.hostname ==> |data.hostname| < 256)
    && (mask.hostname2 ==> |data.hostname2| < 256)
    && forall n :: 0 <= n < ITEMS && mask.values[n] ==> cfg.min[n] <= data.values[n] <= cfg.max[n]
  }

  lemma CheckIsBounds(cfg: Config, data: Params, mask: Mask)
    ensures CheckParam(cfg, data, mask) <==> InBounds(cfg, data, mask)
  {
  }

  predicate IsSet(op: Op) {
    op.Set? || op.SetForcibly?
  }

  /** Let in, every masked parameter in range and, if it saves, saved.  `busy`: another
      writer is inside. */
  predicate Accepted(cfg: Config, op: Op, busy: bool)
    requires IsSet(op)
  {
    !busy && op.entered && InBounds(cfg, op.data, op.mask) && (op.SetForcibly? ==> op.saved)
  }

  /** A whole call that nothing interrupts. */
  function Outcome(cfg: Config, s: State, op: Op): (State, Result)
    requires IsSet(op)
  {
    match op
    case Set(data, mask, entered) => SetParams(cfg, s, data, mask, entered)
    case SetForcibly(data, mask, entered, saved, otherwise) =>
      var (t, result) := SaveForced(cfg, s, data, mask, entered, saved, otherwise);
      (if result == Success then SubstituteForced(cfg, t) else t, result)
  }

  lemma SubstitutionGives(cfg: Config, cache: Params, data: Params, mask: Mask, item: Item)
    requires cfg.Ok() && ValidCache(cfg, cache) && CheckParam(cfg, data, mask) && IsItem(item)
    ensures ValueIn(Substituted(cfg, cache, Converted(data), mask), item)
         == if Masks(mask, item) then Given(cfg, data, item) else ValueIn(cache, item)
  {
    ConversionKeepsChecked(cfg, data, mask);
  }

  /** One call of either kind: it succeeds exactly when accepted; then a masked
      parameter gets the given value, and in every other case it keeps its own. */
  lemma SetChangesMaskedOnly(cfg: Config, s: State, op: Op, item: Item)
    requires cfg.Ok() && ValidCache(cfg, s.cache) && IsSet(op) && IsItem(item)
    ensures var (t, result) := Outcome(cfg, s, op);
            && (result == Success <==> Accepted(cfg, op, s.forced.Some?))
            && ValueIn(t.cache, item)
               == if Accepted(cfg, op, s.forced.Some?) && Masks(op.mask, item) then Given(cfg, op.data, item)
                  else ValueIn(s.cache, item)
  {
    if CheckParam(cfg, op.data, op.mask) {
      SubstitutionGives(cfg, s.cache, op.data, op.mask, item);
    }
  }

  /** What a call returns.  A writer that is let in gets ParamError if and only if some
      masked name is too long or some masked number is out of its range, and
      InternalError if and only if the storage refuses. */
  lemma WhenSetIsRefused(cfg: Config, s: State, op: Op)
    requires IsSet(op)
    ensures var result := Outcome(cfg, s, op).1;
            if !op.entered || s.forced.Some? then result == InternalError
            else
              && (result == ParamError <==>
                   || (op.mask.hostname && |op.data.hostname| >= 256)
                   || (op.mask.hostname2 && |op.data.hostname2| >= 256)
                   || exists n :: 0 <= n < ITEMS && op.mask.values[n]
                                  && (op.data.values[n] < cfg.min[n] || op.data.values[n] > cfg.max[n]))
              && (result == InternalError <==> result != ParamError && op.SetForcibly? && !op.saved)
  {
    CheckIsBounds(cfg, op.data, op.mask);
  }

  /** The default of a parameter: the default server, no second server, the default
      number. */
  function DefaultOf(cfg: Config, item: Item): Value
    requires IsItem(item)
  {
    match item case Server => Name(cfg.server) case Second => Name("") case Number(n) => Num(cfg.def[n])
  }

  /** What loading makes of one record: a missing or unusable one gives the default. */
  function Restored(cfg: Config, record: Option<Value>, item: Item): Value
    requires IsItem(item) && (!item.Number? ==> record.Some? && record.value.Name?)
    requires item.Number? && record.Some? ==> record.value.Num?
  {
    match item
    case Server => if record.value.name == "" || |record.value.name| >= 256 then Name(cfg.server) else record.value
    case Second => if |record.value.name| >= 256 then Name("") else record.value
    case Number(n) =>
      if record.Some? && cfg.min[n] <= record.value.num <= cfg.max[n] then record.value else Num(cfg.def[n])
  }

  lemma LoadingRestores(cfg: Config, store: Store, item: Item)
    requires cfg.Ok() && IsItem(item)
    ensures ValueIn(LoadedFrom(cfg, true, store), item) == Restored(cfg, RecordIn(store, item), item)
  {
  }

  lemma FailedLoadGivesDefaults(cfg: Config, store: Store, item: Item)
    requires cfg.Ok() && IsItem(item)
    ensures ValueIn(LoadedFrom(cfg, false, store), item) == DefaultOf(cfg, item)
  {
  }

  lemma DefaultsByField(cfg: Config, item: Item)
    requires cfg.Ok() && IsItem(item)
    ensures ValueIn(Defaults(cfg), item) == DefaultOf(cfg, item)
  {
  }

  // --------------------------------------------------- what the history says alone

  /** The forced set that has saved and not yet gone on. */
  ghost function InProgress(cfg: Config, ops: seq<Op>): Option<Forced>
    decreases |ops|
  {
    if ops == [] then None
    else
      var earlier, op := InProgress(cfg, ops[..|ops| - 1]), ops[|ops| - 1];
      if op.SetForcibly? && Accepted(cfg, op, earlier.Some?) then Some(Forced(op.data, op.mask))
      else if op.Substitute? then None
      else earlier
  }

  /** The value last asked for. */
  ghost function LastSet(cfg: Config, loadable: bool, store: Store, ops: seq<Op>, item: Item): Value
    requires IsItem(item)
    decreases |ops|
  {
    if ops == [] then if loadable then Restored(cfg, RecordIn(store, item), item) else DefaultOf(cfg, item)
    else
      var init, op := ops[..|ops| - 1], ops[|ops| - 1];
      var earlier, forced := LastSet(cfg, loadable, store, init, item), InProgress(cfg, init);
      match op
      case Set(data, mask, _) =>
        if Accepted(cfg, op, forced.Some?) && Masks(mask, item) then Given(cfg, data, item) else earlier
      case Substitute =>
        if forced.Some? && Masks(forced.value.mask, item) then Given(cfg, forced.value.data, item) else earlier
      case FactoryReset(_) => if item == Second then earlier else DefaultOf(cfg, item)
      case _ => earlier
  }

  /** What the notifier has copied and not yet saved. */
  ghost function LastCopy(cfg: Config, loadable: bool, store: Store, ops: seq<Op>, item: Item): Option<Value>
    requires IsItem(item)
    decreases |ops|
  {
    if ops == [] then None
    else
      var init, op := ops[..|ops| - 1], ops[|ops| - 1];
      var earlier := LastCopy(cfg, loadable, store, init, item);
      if op.CopyCache? && earlier.None? then Some(LastSet(cfg, loadable, store, init, item))
      else if op.SaveCopy? then None
      else earlier
  }

  /** The record last saved: failed saves and resets leave what the storage makes of
      them. */
  ghost function LastRecord(cfg: Config, loadable: bool, store: Store, ops: seq<Op>, item: Item): Option<Value>
    requires IsItem(item)
    decreases |ops|
  {
    if ops == [] then RecordIn(store, item)
    else
      var init, op := ops[..|ops| - 1], ops[|ops| - 1];
      var earlier, busy := LastRecord(cfg, loadable, store, init, item), InProgress(cfg, init).Some?;
      match op
      case SetForcibly(data, mask, entered, saved, otherwise) =>
        if Accepted(cfg, op, busy) then if Masks(mask, item) then Some(Given(cfg, data, item)) else earlier
        else if !busy && entered && InBounds(cfg, data, mask) then RecordIn(otherwise, item)
        else earlier
      case SaveCopy(saved, otherwise) =>
        var copied := LastCopy(cfg, loadable, store, init, item);
        if copied.None? then earlier else if saved then copied else RecordIn(otherwise, item)
      case FactoryReset(after) => RecordIn(after, item)
      case _ => earlier
  }

  lemma {:induction false} ForcedIsInProgress(cfg: Config, loadable: bool, store: Store, ops: seq<Op>)
    ensures Exec(cfg, loadable, store, ops).forced == InProgress(cfg, ops)
    decreases |ops|
  {
    if ops != [] {
      ForcedIsInProgress(cfg, loadable, store, ops[..|ops| - 1]);
    }
  }

  /** One step, seen from one parameter of the cache. */
  lemma StepSets(cfg: Config, s: State, op: Op, item: Item)
    requires cfg.Ok() && Checked(cfg, s) && IsItem(item)
    ensures ValueIn(Apply(cfg, s, op).cache, item)
         == match op
            case Set(data, mask, _) =>
              if Accepted(cfg, op, s.forced.Some?) && Masks(mask, item) then Given(cfg, data, item)
              else ValueIn(s.cache, item)
            case Substitute =>
              if s.forced.Some? && Masks(s.forced.value.mask, item) then Given(cfg, s.forced.value.data, item)
              else ValueIn(s.cache, item)
            case FactoryReset(_) => if item == Second then ValueIn(s.cache, item) else DefaultOf(cfg, item)
            case _ => ValueIn(s.cache, item)
  {
    ValidNeedsNoReload(cfg, s.cache);
    if op.Set? && CheckParam(cfg, op.data, op.mask) {
      SubstitutionGives(cfg, s.cache, op.data, op.mask, item);
    } else if op.Substitute? && s.forced.Some? {
      SubstitutionGives(cfg, s.cache, s.forced.value.data, s.forced.value.mask, item);
    }
  }

  /** After any sequence of operations every parameter is the one that the last
      accepted set with its mask asked for, or its default if a reset came later, or
      what was loaded; the second server takes no notice of resets. */
  lemma {:induction false} ParametersAreLastSet(cfg: Config, loadable: bool, store: Store, ops: seq<Op>, item: Item)
    requires cfg.Ok() && IsItem(item)
    ensures ValueIn(Exec(cfg, loadable, store, ops).cache, item) == LastSet(cfg, loadable, store, ops, item)
    decreases |ops|
  {
    if ops != [] {
      var init, op := ops[..|ops| - 1], ops[|ops| - 1];
      ParametersAreLastSet(cfg, loadable, store, init, item);
      RunIsChecked(cfg, loadable, store, init);
      ForcedIsInProgress(cfg, loadable, store, init);
      StepSets(cfg, Exec(cfg, loadable, store, init), op, item);
    }
  }

  lemma {:induction false} CopyIsLastCopy(cfg: Config, loadable: bool, store: Store, ops: seq<Op>, item: Item)
    requires cfg.Ok() && IsItem(item)
    ensures LastCopy(cfg, loadable, store, ops, item)
         == match Exec(cfg, loadable, store, ops).copy case None => None case Some(p) => Some(ValueIn(p, item))
    decreases |ops|
  {
    if ops != [] {
      CopyIsLastCopy(cfg, loadable, store, ops[..|ops| - 1], item);
      ParametersAreLastSet(cfg, loadable, store, ops[..|ops| - 1], item);
    }
  }

  /** What a forced set leaves in the storage. */
  lemma ForcedSetSavesMaskedOnly(cfg: Config, store: Store, data: Params, mask: Mask, item: Item)
    requires cfg.Ok() && CheckParam(cfg, data, mask) && IsItem(item)
    ensures RecordIn(SavedTo(store, NamesRepaired(cfg, Converted(data)), mask), item)
         == if Masks(mask, item) then Some(Given(cfg, data, item)) else RecordIn(store, item)
  {
    ConversionKeepsChecked(cfg, data, mask);
  }

  lemma CopySavesAll(store: Store, p: Params, item: Item)
    requires IsItem(item)
    ensures RecordIn(SavedTo(store, p, ALL), item) == Some(ValueIn(p, item))
  {
  }

  /** After any sequence of operations every record is the value last saved: by a
      forced set with its mask, or by the save after a synchronization, which writes
      what the cache held when it was copied; or else what a failed save or a reset
      has left. */
  lemma {:induction false} RecordsAreLastSaved(cfg: Config, loadable: bool, store: Store, ops: seq<Op>, item: Item)
    requires cfg.Ok() && IsItem(item)
    ensures RecordIn(Exec(cfg, loadable, store, ops).store, item) == LastRecord(cfg, loadable, store, ops, item)
    decreases |ops|
  {
    if ops != [] {
      var init, op := ops[..|ops| - 1], ops[|ops| - 1];
      var s := Exec(cfg, loadable, store, init);
      RecordsAreLastSaved(cfg, loadable, store, init, item);
      ForcedIsInProgress(cfg, loadable, store, init);
      CopyIsLastCopy(cfg, loadable, store, init, item);
      if op.SetForcibly? && CheckParam(cfg, op.data, op.mask) {
        ForcedSetSavesMaskedOnly(cfg, s.store, op.data, op.mask, item);
      } else if op.SaveCopy? && s.copy.Some? {
        CopySavesAll(s.store, s.copy.value, item);
      }
    }
  }

  // -------------------------------------------------------- what a restart finds

  /** The record that the forced set in progress has saved is still there. */
  ghost predicate InPlace(cfg: Config, ops: seq<Op>, item: Item)
    requires IsItem(item)
    decreases |ops|
  {
    if ops == [] then false
    else
      var init, op := ops[..|ops| - 1], ops[|ops| - 1];
      var earlier := InPlace(cfg, init, item);
      match op
      case SetForcibly(_, mask, _, _, _) =>
        if Accepted(cfg, op, InProgress(cfg, init).Some?) then Masks(mask, item) else earlier
      case Substitute => false
      case FactoryReset(_) => false
      case SaveCopy(_, _) => earlier && !Copied(init)
      case _ => earlier
  }

  /** The notifier has a copy to save. */
  ghost predicate Copied(ops: seq<Op>)
    decreases |ops|
  {
    if ops == [] then false
    else
      var op := ops[|ops| - 1];
      op.CopyCache? || (!op.SaveCopy? && Copied(ops[..|ops| - 1]))
  }

  /** The parameter has not changed since it was copied. */
  ghost predicate Fresh(cfg: Config, ops: seq<Op>, item: Item)
    requires IsItem(item)
    decreases |ops|
  {
    if ops == [] then false
    else
      var init, op := ops[..|ops| - 1], ops[|ops| - 1];
      var earlier, forced := Fresh(cfg, init, item), InProgress(cfg, init);
      match op
      case Set(_, mask, _) => earlier && !(Accepted(cfg, op, forced.Some?) && Masks(mask, item))
      case Substitute => earlier && !(forced.Some? && Masks(forced.value.mask, item))
      case FactoryReset(_) => earlier && item == Second
      case CopyCache => earlier || !Copied(init)
      case _ => earlier
  }

  /** The parameter was loaded, set with force, or saved after a synchronization, and
      since then neither set without force nor touched by a reset or a failed save. */
  ghost predicate Durable(cfg: Config, loadable: bool, ops: seq<Op>, item: Item)
    requires IsItem(item)
    decreases |ops|
  {
    if ops == [] then loadable
    else
      var init, op := ops[..|ops| - 1], ops[|ops| - 1];
      var earlier, forced := Durable(cfg, loadable, init, item), InProgress(cfg, init);
      match op
      case Set(_, mask, _) => earlier && !(Accepted(cfg, op, forced.Some?) && Masks(mask, item))
      case SetForcibly(data, mask, entered, _, _) =>
        earlier && if Accepted(cfg, op, forced.Some?) then !Masks(mask, item)
                   else !(forced.None? && entered && InBounds(cfg, data, mask))
      case Substitute =>
        if forced.Some? && Masks(forced.value.mask, item) then InPlace(cfg, init, item) else earlier
      case FactoryReset(_) => false
      case SaveCopy(saved, _) => if Copied(init) then saved && Fresh(cfg, init, item) else earlier
      case _ => earlier
  }

  lemma GivenIsRestored(cfg: Config, data: Params, mask: Mask, item: Item)
    requires cfg.Ok() && CheckParam(cfg, data, mask) && IsItem(item) && Masks(mask, item)
    ensures Restored(cfg, Some(Given(cfg, data, item)), item) == Given(cfg, data, item)
  {
  }

  lemma ValidIsRestored(cfg: Config, p: Params, item: Item)
    requires cfg.Ok() && ValidCache(cfg, p) && IsItem(item)
    ensures Restored(cfg, Some(ValueIn(p, item)), item) == ValueIn(p, item)
  {
  }

  lemma {:induction false} CopyIsCopied(cfg: Config, loadable: bool, store: Store, ops: seq<Op>)
    ensures Exec(cfg, loadable, store, ops).copy.Some? <==> Copied(ops)
    decreases |ops|
  {
    if ops != [] {
      CopyIsCopied(cfg, loadable, store, ops[..|ops| - 1]);
    }
  }

  lemma {:induction false} FreshCopy(cfg: Config, loadable: bool, store: Store, ops: seq<Op>, item: Item)
    requires cfg.Ok() && IsItem(item) && Fresh(cfg, ops, item) && Copied(ops)
    ensures var s := Exec(cfg, loadable, store, ops);
            s.copy.Some? && ValueIn(s.copy.value, item) == ValueIn(s.cache, item)
    decreases |ops|
  {
    var init, op := ops[..|ops| - 1], ops[|ops| - 1];
    var s := Exec(cfg, loadable, store, init);
    CopyIsCopied(cfg, loadable, store, init);
    if Copied(init) {
      FreshCopy(cfg, loadable, store, init, item);
      RunIsChecked(cfg, loadable, store, init);
      ForcedIsInProgress(cfg, loadable, store, init);
      StepSets(cfg, s, op, item);
    }
  }

  lemma {:induction false} RecordInPlace(cfg: Config, loadable: bool, store: Store, ops: seq<Op>, item: Item)
    requires cfg.Ok() && IsItem(item) && InPlace(cfg, ops, item)
    ensures var s := Exec(cfg, loadable, store, ops);
            && s.forced.Some? && Masks(s.forced.value.mask, item)
            && RecordIn(s.store, item) == Some(Given(cfg, s.forced.value.data, item))
    decreases |ops|
  {
    var init, op := ops[..|ops| - 1], ops[|ops| - 1];
    var s := Exec(cfg, loadable, store, init);
    ForcedIsInProgress(cfg, loadable, store, init);
    CopyIsCopied(cfg, loadable, store, init);
    if op.SetForcibly? && Accepted(cfg, op, s.forced.Some?) {
      ForcedSetSavesMaskedOnly(cfg, s.store, op.data, op.mask, item);
    } else {
      RecordInPlace(cfg, loadable, store, init, item);
    }
  }

  /** The parameter, as a restart would find it, is the one in the cache. */
  ghost predicate Survives(cfg: Config, s: State, item: Item)
    requires IsItem(item)
  {
    Restored(cfg, RecordIn(s.store, item), item) == ValueIn(s.cache, item)
  }

  lemma SetSurvives(cfg: Config, s: State, op: Op, item: Item)
    requires cfg.Ok() && Checked(cfg, s) && IsItem(item) && Survives(cfg, s, item)
    requires op.Set? && !(Accepted(cfg, op, s.forced.Some?) && Masks(op.mask, item))
    ensures Survives(cfg, Apply(cfg, s, op), item)
  {
    SetChangesMaskedOnly(cfg, s, op, item);
  }

  lemma ForcedSetSurvives(cfg: Config, s: State, op: Op, item: Item)
    requires cfg.Ok() && Checked(cfg, s) && IsItem(item) && Survives(cfg, s, item) && op.SetForcibly?
    requires if Accepted(cfg, op, s.forced.Some?) then !Masks(op.mask, item)
             else !(s.forced.None? && op.entered && InBounds(cfg, op.data, op.mask))
    ensures Survives(cfg, Apply(cfg, s, op), item)
  {
    if Accepted(cfg, op, s.forced.Some?) {
      ForcedSetSavesMaskedOnly(cfg, s.store, op.data, op.mask, item);
    }
  }

  lemma SubstitutionSurvives(cfg: Config, s: State, item: Item)
    requires cfg.Ok() && Checked(cfg, s) && IsItem(item) && s.forced.Some?
    requires if Masks(s.forced.value.mask, item)
             then RecordIn(s.store, item) == Some(Given(cfg, s.forced.value.data, item))
             else Survives(cfg, s, item)
    ensures Survives(cfg, SubstituteForced(cfg, s), item)
  {
    var f := s.forced.value;
    SubstitutionGives(cfg, s.cache, f.data, f.mask, item);
    if Masks(f.mask, item) {
      GivenIsRestored(cfg, f.data, f.mask, item);
    }
  }

  lemma SavedCopySurvives(cfg: Config, s: State, otherwise: Store, item: Item)
    requires cfg.Ok() && Checked(cfg, s) && IsItem(item)
    requires s.copy.Some? && ValueIn(s.copy.value, item) == ValueIn(s.cache, item)
    ensures Survives(cfg, SaveCopied(s, true, otherwise), item)
  {
    CopySavesAll(s.store, s.copy.value, item);
    ValidIsRestored(cfg, s.copy.value, item);
  }

  lemma {:induction false} DurableSurvives(cfg: Config, loadable: bool, store: Store, ops: seq<Op>, item: Item)
    requires cfg.Ok() && IsItem(item) && Durable(cfg, loadable, ops, item)
    ensures Survives(cfg, Exec(cfg, loadable, store, ops), item)
    decreases |ops|
  {
    if ops == [] {
      LoadingRestores(cfg, store, item);
    } else {
      var init, op := ops[..|ops| - 1], ops[|ops| - 1];
      var s := Exec(cfg, loadable, store, init);
      RunIsChecked(cfg, loadable, store, init);
      ForcedIsInProgress(cfg, loadable, store, init);
      CopyIsCopied(cfg, loadable, store, init);
      ValidNeedsNoReload(cfg, s.cache);
      if Durable(cfg, loadable, init, item) {
        DurableSurvives(cfg, loadable, store, init, item);
      }
      if op.Set? {
        SetSurvives(cfg, s, op, item);
      } else if op.SetForcibly? {
        ForcedSetSurvives(cfg, s, op, item);
      } else if op.Substitute? && s.forced.Some? {
        if InPlace(cfg, init, item) {
          RecordInPlace(cfg, loadable, store, init, item);
        }
        SubstitutionSurvives(cfg, s, item);
      } else if op.SaveCopy? && s.copy.Some? {
        FreshCopy(cfg, loadable, store, init, item);
        SavedCopySurvives(cfg, s, op.otherwise, item);
      }
    }
  }

  /** After any sequence of operations a restart finds each durable parameter as it
      was. */
  lemma {:induction false} RestartKeepsDurable(cfg: Config, loadable: bool, store: Store, ops: seq<Op>, item: Item)
    requires cfg.Ok() && IsItem(item) && Durable(cfg, loadable, ops, item)
    ensures var s := Exec(cfg, loadable, store, ops);
            ValueIn(LoadedFrom(cfg, true, s.store), item) == ValueIn(s.cache, item)
  {
    DurableSurvives(cfg, loadable, store, ops, item);
    LoadingRestores(cfg, Exec(cfg, loadable, store, ops).store, item);
  }

  /** What can happen while the barrier keeps writers out and no reset comes. */
  predicate IsCalm(op: Op) {
    op.Get? || (IsSet(op) && !op.entered)
  }

  lemma {:induction false} CalmKeepsFresh(cfg: Config, ops: seq<Op>, between: seq<Op>, item: Item)
    requires IsItem(item) && Copied(ops) && Fresh(cfg, ops, item)
    requires forall k :: 0 <= k < |between| ==> IsCalm(between[k])
    ensures Copied(ops + between) && Fresh(cfg, ops + between, item)
    decreases |between|
  {
    if between == [] {
      assert ops + between == ops;
    } else {
      var init := between[..|between| - 1];
      CalmKeepsFresh(cfg, ops, init, item);
      assert (ops + between)[..|ops + between| - 1] == ops + init;
    }
  }

  lemma SameItemsSameParams(p: Params, q: Params)
    requires forall item :: IsItem(item) ==> ValueIn(p, item) == ValueIn(q, item)
    ensures p == q
  {
    assert IsItem(Server) && IsItem(Second);
    assert ValueIn(p, Server) == ValueIn(q, Server) && ValueIn(p, Second) == ValueIn(q, Second);
    forall n | 0 <= n < ITEMS ensures p.values[n] == q.values[n] {
      assert IsItem(Number(n));
      assert ValueIn(p, Number(n)) == ValueIn(q, Number(n));
    }
  }

  /** What the save after a synchronization is for: in every run, if the barrier keeps
      writers out from the copy to the save, no reset comes between and the save
      succeeds, a restart finds the whole cache, forced or not. */
  lemma {:induction false} SynchronizationSurvivesRestart(cfg: Config, loadable: bool, store: Store,
                                                          ops: seq<Op>, between: seq<Op>, otherwise: Store)
    requires cfg.Ok() && !Copied(ops)
    requires forall k :: 0 <= k < |between| ==> IsCalm(between[k])
    ensures var s := Exec(cfg, loadable, store, ops + [CopyCache] + between + [SaveCopy(true, otherwise)]);
            LoadedFrom(cfg, true, s.store) == s.cache
  {
    var all := ops + [CopyCache] + between;
    var s := Exec(cfg, loadable, store, all + [SaveCopy(true, otherwise)]);
    assert (all + [SaveCopy(true, otherwise)])[..|all|] == all;
    forall item | IsItem(item) ensures ValueIn(LoadedFrom(cfg, true, s.store), item) == ValueIn(s.cache, item) {
      assert (ops + [CopyCache])[..|ops|] == ops;
      CalmKeepsFresh(cfg, ops + [CopyCache], between, item);
      RestartKeepsDurable(cfg, loadable, store, all + [SaveCopy(true, otherwise)], item);
    }
    SameItemsSameParams(LoadedFrom(cfg, true, s.store), s.cache);
  }

  /** A factory reset that comes between the copy and the save is undone by a restart
      for each parameter, the second server apart, that did not have its default: the
      reset is in the cache, and the old value in the storage. */
  lemma {:induction false} ResetDuringSaveIsUndone(cfg: Config, loadable: bool, store: Store, ops: seq<Op>,
                                                   after: Store, otherwise: Store, item: Item)
    requires cfg.Ok() && !Copied(ops) && IsItem(item) && item != Second
    ensures var all := ops + [CopyCache] + [FactoryReset(after)] + [SaveCopy(true, otherwise)];
            var s := Exec(cfg, loadable, store, all);
            && ValueIn(s.cache, item) == DefaultOf(cfg, item)
            && ValueIn(LoadedFrom(cfg, true, s.store), item) == LastSet(cfg, loadable, store, ops, item)
  {
    var copied := ops + [CopyCache];
    var reset := copied + [FactoryReset(after)];
    var all := reset + [SaveCopy(true, otherwise)];
    assert copied[..|ops|] == ops && reset[..|copied|] == copied && all[..|reset|] == reset;
    CopyIsCopied(cfg, loadable, store, ops);
    var p, t := Exec(cfg, loadable, store, ops).cache, Exec(cfg, loadable, store, reset);
    CacheStaysValid(cfg, loadable, store, ops);
    ParametersAreLastSet(cfg, loadable, store, ops, item);
    assert Exec(cfg, loadable, store, copied).copy == Some(p);
    assert Exec(cfg, loadable, store, all).store == SavedTo(t.store, p, ALL);
    CopySavesAll(t.store, p, item);
    LoadingRestores(cfg, Exec(cfg, loadable, store, all).store, item);
    ValidIsRestored(cfg, p, item);
  }

  lemma ResetIsDefault(cfg: Config, cache: Params)
    ensures Reset(cfg, cache) == Defaults(cfg) <==> cache.hostname2 == ""
  {
  }

  /** After any sequence of operations a factory reset gives the defaults exactly when
      the second server last asked for is none: it leaves that name as it is. */
  lemma {:induction false} WhenResetGivesDefaults(cfg: Config, loadable: bool, store: Store, ops: seq<Op>, after: Store)
    requires cfg.Ok()
    ensures Exec(cfg, loadable, store, ops + [FactoryReset(after)]).cache == Defaults(cfg)
            <==> LastSet(cfg, loadable, store, ops, Second) == Name("")
  {
    ParametersAreLastSet(cfg, loadable, store, ops, Second);
    ResetIsDefault(cfg, Exec(cfg, loadable, store, ops).cache);
    assert (ops + [FactoryReset(after)])[..|ops|] == ops;
  }

  /** A second server that was set survives the reset. */
  lemma ResetKeepsSecondServer(cfg: Config, loadable: bool, store: Store, data: Params, mask: Mask)
    requires cfg.Ok() && CheckParam(cfg, data, mask) && mask.hostname2 && data.hostname2 != ""
    ensures var s := Exec(cfg, loadable, store, [Set(data, mask, true), FactoryReset(store)]);
            s.cache.hostname2 == data.hostname2 && s.cache != Defaults(cfg)
  {
    var first, both := [Set(data, mask, true)], [Set(data, mask, true), FactoryReset(store)];
    assert first[..0] == [] && both[..1] == first;
    assert Exec(cfg, loadable, store, first).cache
        == Substituted(cfg, LoadedFrom(cfg, loadable, store), Converted(data), mask);
  }
}

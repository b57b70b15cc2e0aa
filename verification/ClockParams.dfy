/**
 The cached clock parameters: two server names and nine numbers.

 Names are buffers of 256 characters; a name of 256 or more characters stands for a
 buffer without a terminator.  The limits and defaults of the numbers, and the
 default server, are a `Config`.
 */
module ClockParams {
  import opened Common

  const NAME_SIZE: nat := 256

  const SYNC_INTERVAL: nat := 0
  const POLLING_TIME: nat := 1
  const SKIP_TYPE: nat := 2
  const LIMIT_PACKET_TIME: nat := 3
  const LIMIT_RTC: nat := 4
  const SANITY_LIMIT: nat := 5
  const SLEW_TYPE: nat := 6
  const STABLE_RTC: nat := 7
  const STABLE_SYNC: nat := 8
  const ITEMS: nat := 9

  const TYPE_OFF := 0
  const TYPE_NUM_MAX := 3

  type Values = s: seq<int> | |s| == ITEMS witness [0, 0, 0, 0, 0, 0, 0, 0, 0]
  type Flags = s: seq<bool> | |s| == ITEMS witness seq(ITEMS, i => false)
  type Records = s: seq<Option<int>> | |s| == ITEMS witness seq(ITEMS, i => None)

  datatype Params = Params(hostname: string, hostname2: string, values: Values)

  datatype Mask = Mask(hostname: bool, hostname2: bool, values: Flags)

  /** What the parameter storage holds; a number never saved has no record. */
  datatype Store = Store(hostname: string, hostname2: string, values: Records)

  datatype Config = Config(server: string, min: Values, max: Values, def: Values) {
    /** Every default lies in its range, no minimum is negative, and the two mode
        settings range over their three values with "off" the default. */
    ghost predicate Ok() {
      && 0 < |server| < NAME_SIZE
      && (forall i :: 0 <= i < ITEMS ==> 0 <= min[i] <= def[i] <= max[i])
      && (forall i :: i in {SKIP_TYPE, SLEW_TYPE} ==>
            min[i] == 0 && max[i] == TYPE_NUM_MAX - 1 && def[i] == TYPE_OFF)
    }

    predicate InRange(i: nat, v: int)
      requires i < ITEMS
    {
      min[i] <= v <= max[i]
    }
  }

  datatype Result = Success | ParamError | InternalError

  predicate GoodName(name: string) {
    |name| < NAME_SIZE
  }

  /** Only masked parameters are checked; an empty name passes. */
  predicate CheckParam(cfg: Config, data: Params, mask: Mask) {
    && (mask.hostname ==> GoodName(data.hostname))
    && (mask.hostname2 ==> GoodName(data.hostname2))
    && forall i :: 0 <= i < ITEMS && mask.values[i] ==> cfg.InRange(i, data.values[i])
  }

  /** The storage's code of a mode setting. */
  function PsmType(kind: int): int {
    match kind
    case 1 => 1
    case 2 => 2
    case 3 => 3
    case _ => TYPE_OFF
  }

  /** A caller's parameters in the storage's layout. */
  function Converted(data: Params): Params {
    data.(values := data.values[SKIP_TYPE := PsmType(data.values[SKIP_TYPE])]
                               [SLEW_TYPE := PsmType(data.values[SLEW_TYPE])])
  }

  /** What a bounded copy of a name keeps. */
  function Cut(name: string): (r: string)
    ensures GoodName(r) && r <= name && (GoodName(name) ==> r == name)
  {
    if GoodName(name) then name else name[..NAME_SIZE - 1]
  }

  /** A missing server becomes the default, an unusable second server none. */
  function NamesRepaired(cfg: Config, p: Params): Params {
    p.(hostname := if p.hostname == "" || !GoodName(p.hostname) then Cut(cfg.server) else p.hostname,
       hostname2 := if !GoodName(p.hostname2) then "" else p.hostname2)
  }

  function Chosen<T>(take: bool, x: T, keep: T): T {
    if take then x else keep
  }

  /** The cache after masked parameters are copied into it. */
  function Substituted(cfg: Config, cache: Params, data: Params, mask: Mask): Params {
    var p := Params(
               Chosen(mask.hostname, Cut(data.hostname), cache.hostname),
               Chosen(mask.hostname2, Cut(data.hostname2), cache.hostname2),
               seq(ITEMS, i requires 0 <= i < ITEMS => Chosen(mask.values[i], data.values[i], cache.values[i])));
    if mask.hostname || mask.hostname2 then NamesRepaired(cfg, p) else p
  }

  function Defaults(cfg: Config): Params {
    Params(Cut(cfg.server), "", cfg.def)
  }

  /** What a factory reset leaves: the second server is not among the items that are
      given their defaults. */
  function Reset(cfg: Config, cache: Params): Params {
    Defaults(cfg).(hostname2 := cache.hostname2)
  }

  /** A number the storage has no record of, or out of range, gets its default. */
  function Repaired(cfg: Config, i: nat, record: Option<int>): int
    requires i < ITEMS
  {
    if record.Some? && cfg.InRange(i, record.value) then record.value else cfg.def[i]
  }

  /** The cache as loaded; a failed load leaves the object as it was prepared, with
      empty names, before the defaults go in. */
  function LoadedFrom(cfg: Config, ok: bool, store: Store): Params {
    if !ok then Reset(cfg, Params("", "", cfg.def))
    else
      NamesRepaired(cfg, Params(store.hostname, store.hostname2,
                                seq(ITEMS, i requires 0 <= i < ITEMS => Repaired(cfg, i, store.values[i]))))
  }

  /** Masked items of `p` go to the storage. */
  function SavedTo(store: Store, p: Params, mask: Mask): Store {
    Store(Chosen(mask.hostname, p.hostname, store.hostname),
          Chosen(mask.hostname2, p.hostname2, store.hostname2),
          seq(ITEMS, i requires 0 <= i < ITEMS => Chosen(mask.values[i], Some(p.values[i]), store.values[i])))
  }

  /** The test for a cache that must be loaded again before it is read. */
  predicate NeedsReload(p: Params) {
    || p.hostname == "" || !GoodName(p.hostname) || !GoodName(p.hostname2)
    || p.values[SYNC_INTERVAL] < 0 || p.values[POLLING_TIME] < 0
    || p.values[SKIP_TYPE] >= TYPE_NUM_MAX
    || p.values[LIMIT_PACKET_TIME] < 0 || p.values[LIMIT_RTC] < 0 || p.values[SANITY_LIMIT] < 0
    || p.values[SLEW_TYPE] >= TYPE_NUM_MAX
    || p.values[STABLE_RTC] < 0 || p.values[STABLE_SYNC] < 0
  }

  // ----------------------------------------------------- the object, in place

  /** A parameter object of the storage's layout: the cache, or a temporary one. */
  class ParamsForPsm {
    const cfg: Config
    var hostname: string
    var hostname2: string
    const values: array<int>
    const sizes: array<nat>      // 0: the storage had no record

    ghost predicate Valid()
      reads this
    {
      values.Length == ITEMS && sizes.Length == ITEMS
    }

    ghost function Contents(): Params
      requires Valid()
      reads this, values
    {
      Params(hostname, hostname2, values[..])
    }

    /** What was loaded, record by record. */
    ghost function AsStore(): Store
      requires Valid()
      reads this, values, sizes
    {
      Store(hostname, hostname2,
            seq(ITEMS, i requires 0 <= i < ITEMS && Valid() reads this, values, sizes
                       => if sizes[i] == 0 then None else Some(values[i])))
    }

    constructor (cfg: Config)
      ensures Valid() && fresh(values) && fresh(sizes) && this.cfg == cfg
      ensures Contents() == Params("", "", seq(ITEMS, i => 0))
    {
      this.cfg := cfg;
      hostname, hostname2 := "", "";
      values := new int[ITEMS](i => 0);
      sizes := new nat[ITEMS](i => 0);
    }

    method SetDefaultServer()
      requires Valid()
      modifies this`hostname
      ensures hostname == Cut(cfg.server)
    {
      hostname := Cut(cfg.server);
    }

    method SetDefault(item: nat)
      requires Valid() && item < ITEMS
      modifies values
      ensures values[..] == old(values[..])[item := cfg.def[item]]
    {
      values[item] := cfg.def[item];
    }

    method CheckConnect()
      requires Valid()
      modifies this`hostname, this`hostname2
      ensures Contents() == NamesRepaired(cfg, old(Contents()))
    {
      if hostname == "" || |hostname| >= NAME_SIZE {
        SetDefaultServer();
      }
      if |hostname2| >= NAME_SIZE {
        hostname2 := "";
      }
    }

    /** Repairs one number. */
    method CheckItem(item: nat)
      requires Valid() && item < ITEMS
      modifies values
      ensures values[..] == old(values[..])[item := Repaired(cfg, item, old(AsStore()).values[item])]
    {
      if sizes[item] == 0 || values[item] < cfg.min[item] || values[item] > cfg.max[item] {
        SetDefault(item);
      }
    }

    method CheckData()
      requires Valid()
      modifies this, values
      ensures Valid() && Contents() == LoadedFrom(cfg, true, old(AsStore()))
    {
      ghost var store := AsStore();
      CheckConnect();
      var i := 0;
      while i < ITEMS
        modifies values
        invariant 0 <= i <= ITEMS
        invariant forall k :: 0 <= k < i ==> values[k] == Repaired(cfg, k, store.values[k])
        invariant forall k :: i <= k < ITEMS ==> values[k] == old(values[k])
      {
        CheckItem(i);
        i := i + 1;
      }
      assert values[..] == LoadedFrom(cfg, true, store).values;
    }

    /** Item by item, in the order of the code. */
    method OnFactoryReset()
      requires Valid()
      modifies this, values
      ensures Valid() && Contents() == Reset(cfg, old(Contents()))
    {
      SetDefaultServer();
      SetDefault(SYNC_INTERVAL);
      SetDefault(POLLING_TIME);
      SetDefault(SKIP_TYPE);
      SetDefault(LIMIT_PACKET_TIME);
      SetDefault(LIMIT_RTC);
      SetDefault(SANITY_LIMIT);
      SetDefault(SLEW_TYPE);
      SetDefault(STABLE_RTC);
      SetDefault(STABLE_SYNC);
      assert values[..] == cfg.def;
    }

    method TakeValue(data: Params, mask: Mask, item: nat)
      requires Valid() && item < ITEMS
      modifies values
      ensures values[item] == Chosen(mask.values[item], data.values[item], old(values[item]))
      ensures forall i :: 0 <= i < ITEMS && i != item ==> values[i] == old(values[i])
    {
      if mask.values[item] {
        values[item] := data.values[item];
      }
    }

    method TakeNames(data: Params, mask: Mask)
      requires Valid()
      modifies this`hostname, this`hostname2
      ensures var after := Substituted(cfg, old(Contents()), data, mask);
              hostname == after.hostname && hostname2 == after.hostname2
    {
      if mask.hostname {
        hostname := Cut(data.hostname);
      }
      if mask.hostname2 {
        hostname2 := Cut(data.hostname2);
      }
      if mask.hostname || mask.hostname2 {
        CheckConnect();
      }
    }

    method TakeValues(data: Params, mask: Mask)
      requires Valid()
      modifies values
      ensures forall i :: 0 <= i < ITEMS ==> values[i] == Chosen(mask.values[i], data.values[i], old(values[i]))
    {
      TakeValue(data, mask, SYNC_INTERVAL);
      TakeValue(data, mask, POLLING_TIME);
      TakeValue(data, mask, SKIP_TYPE);
      TakeValue(data, mask, LIMIT_PACKET_TIME);
      TakeValue(data, mask, LIMIT_RTC);
      TakeValue(data, mask, SANITY_LIMIT);
      TakeValue(data, mask, SLEW_TYPE);
      TakeValue(data, mask, STABLE_RTC);
      TakeValue(data, mask, STABLE_SYNC);
    }

    method SubstituteForVolatileObj(data: Params, mask: Mask)
      requires Valid()
      modifies this, values
      ensures Valid() && Contents() == Substituted(cfg, old(Contents()), data, mask)
    {
      TakeNames(data, mask);
      TakeValues(data, mask);
      assert values[..] == Substituted(cfg, old(Contents()), data, mask).values;
    }
  }
}

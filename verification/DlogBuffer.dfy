/**
 The DLOG double buffer: two RAM planes, one written by the logging threads and
 one retired plane that waits for the DLOG thread.

 `Planes` is the shared state guarded by the byte-buffer mutex; the functions on
 it are the critical sections of the source.  The class `DlogRam` runs the same
 sections in place on fields and fixed-size arrays.
 */
module DlogBuffer {
  import opened Common

  const AES_BLOCK: nat := 16

  datatype Status = Use | HalfUse

  datatype WriteResult = Stored | StoredAndFull | Rejected

  /** The size reserved for `n` stored bytes: one AES block plus the padding up
      to the next block boundary (a whole block when `n` is already aligned). */
  function PaddedSize(n: nat): (r: nat)
    ensures r % AES_BLOCK == 0
    ensures n + AES_BLOCK < r <= n + 2 * AES_BLOCK
  {
    n + AES_BLOCK + (AES_BLOCK - n % AES_BLOCK)
  }

  lemma PaddedSizeIsMonotone(m: nat, n: nat)
    requires m <= n
    ensures PaddedSize(m) <= PaddedSize(n)
    ensures PaddedSize(m) == PaddedSize(n) <==> m / AES_BLOCK == n / AES_BLOCK
  {
    assert PaddedSize(m) == (m / AES_BLOCK + 2) * AES_BLOCK;
    assert PaddedSize(n) == (n / AES_BLOCK + 2) * AES_BLOCK;
    assert m / AES_BLOCK <= n / AES_BLOCK;
  }

  /** The capacity test of a write. */
  predicate Fits(n: nat, cap: nat) {
    PaddedSize(n) < cap
  }

  datatype Planes = Planes(
    cur: nat,               // plane being written
    oldest: nat,            // plane handed to the DLOG thread
    status: Status,
    data: seq<seq<Byte>>,   // what the byte buffers hold
    store: seq<nat>,        // the separate length counters
    retiredSize: nat,       // length of the plane retired last
    critical: seq<bool>,
    pending: bool,          // a critical log waits in the current plane
    since: int)             // when it arrived, in seconds
  {
    ghost predicate WellFormed() {
      && |data| == |store| == |critical| == 2
      && cur < 2 && oldest < 2
    }
  }

  const EMPTY_PLANES: Planes :=
    Planes(0, 0, Use, [[], []], [0, 0], 0, [false, false], false, 0)

  /** Retires the current plane.  If the other plane is still waiting for the
      DLOG thread its contents are dropped. */
  function ChangePlane(p: Planes): (r: Planes)
    requires p.WellFormed()
    ensures r.WellFormed()
  {
    var next := if p.cur == 0 then 1 else 0;
    if p.status == HalfUse then
      p.(oldest := p.cur, retiredSize := p.store[p.cur], cur := next,
         data := p.data[next := []], store := p.store[next := 0],
         critical := p.critical[next := false])
    else
      p.(oldest := p.cur, status := HalfUse, retiredSize := p.store[p.cur], cur := next)
  }

  /** A successful push into the current plane. */
  function Append(p: Planes, bytes: seq<Byte>, isCritical: bool, now: int): (r: Planes)
    requires p.WellFormed()
    ensures r.WellFormed()
  {
    var q := p.(data := p.data[p.cur := p.data[p.cur] + bytes],
                store := p.store[p.cur := p.store[p.cur] + |bytes|]);
    if isCritical then
      q.(critical := q.critical[q.cur := true],
         since := if q.pending then q.since else now,
         pending := true)
    else q
  }

  /** One write.  The byte buffer refuses what does not fit the plane. */
  function Write(p: Planes, cap: nat, bytes: seq<Byte>, isCritical: bool, now: int)
    : (r: (Planes, WriteResult))
    requires p.WellFormed()
    ensures r.0.WellFormed()
  {
    if Fits(p.store[p.cur] + |bytes|, cap) then
      if |p.data[p.cur]| + |bytes| <= cap then (Append(p, bytes, isCritical, now), Stored)
      else (p, Rejected)
    else
      var q := ChangePlane(p).(pending := false);
      if |q.data[q.cur]| + |bytes| <= cap then (Append(q, bytes, isCritical, now), StoredAndFull)
      else (q, Rejected)
  }

  /** The periodic check for a critical log that has waited long enough. */
  predicate TickSwaps(p: Planes, timeout: int, now: int) {
    p.pending && now - p.since >= timeout
  }

  function Tick(p: Planes, timeout: int, now: int): (r: Planes)
    requires p.WellFormed()
    ensures r.WellFormed()
  {
    if TickSwaps(p, timeout, now) then ChangePlane(p).(pending := false) else p
  }

  /** What the DLOG thread does once it has copied a retired plane. */
  function ClearOldest(p: Planes): (r: Planes)
    requires p.WellFormed()
    ensures r.WellFormed()
  {
    p.(data := p.data[p.oldest := []], status := Use,
       store := p.store[p.oldest := 0], critical := p.critical[p.oldest := false])
  }

  /** The file-scope variables of the log manager and the critical sections that
      update them in place. */
  class DlogRam {
    const cap: nat
    const data: array<seq<Byte>>
    const store: array<nat>
    const critical: array<bool>
    var cur: nat
    var oldest: nat
    var status: Status
    var retiredSize: nat
    var pending: bool
    var since: int

    ghost predicate Valid()
      reads this
    {
      data.Length == store.Length == critical.Length == 2 && cur < 2 && oldest < 2
    }

    ghost function Contents(): (p: Planes)
      requires Valid()
      reads this, data, store, critical
      ensures p.WellFormed()
    {
      Planes(cur, oldest, status, data[..], store[..], retiredSize, critical[..], pending, since)
    }

    constructor (cap: nat)
      ensures Valid() && Contents() == EMPTY_PLANES && this.cap == cap
      ensures fresh(data) && fresh(store) && fresh(critical)
    {
      this.cap := cap;
      data := new seq<Byte>[2](_ => []);
      store := new nat[2](_ => 0);
      critical := new bool[2](_ => false);
      cur, oldest, status, retiredSize, pending, since := 0, 0, Use, 0, false, 0;
    }

    method ChangeDlogByteBuffer()
      requires Valid()
      modifies this, data, store, critical
      ensures Valid() && Contents() == ChangePlane(old(Contents()))
    {
      oldest := cur;
      if status == HalfUse {
        retiredSize := store[cur];
        cur := if cur == 0 then 1 else 0;
        data[cur] := [];
        store[cur] := 0;
        critical[cur] := false;
      } else {
        status := HalfUse;
        retiredSize := store[cur];
        cur := if cur == 0 then 1 else 0;
      }
    }

    /** Pushes into the current plane's byte buffer; false when it has no room. */
    method PushBack(bytes: seq<Byte>) returns (ok: bool)
      requires Valid()
      modifies data
      ensures Valid()
      ensures ok <==> |old(data[cur])| + |bytes| <= cap
      ensures data[..] == if ok then old(data[..])[cur := old(data[cur]) + bytes] else old(data[..])
    {
      ok := |data[cur]| + |bytes| <= cap;
      if ok {
        data[cur] := data[cur] + bytes;
      }
    }

    /** The locked part of a write; `StoredAndFull` tells the caller to report
        the retired plane after releasing the locks. */
    method WriteDlog(bytes: seq<Byte>, isCritical: bool, now: int) returns (result: WriteResult)
      requires Valid()
      modifies this, data, store, critical
      ensures Valid()
      ensures (Contents(), result) == Write(old(Contents()), cap, bytes, isCritical, now)
    {
      if Fits(store[cur] + |bytes|, cap) {
        var ok := PushBack(bytes);
        if !ok {
          return Rejected;
        }
        store[cur] := store[cur] + |bytes|;
        result := Stored;
      } else {
        ChangeDlogByteBuffer();
        pending := false;
        var ok := PushBack(bytes);
        if !ok {
          return Rejected;
        }
        store[cur] := store[cur] + |bytes|;
        result := StoredAndFull;
      }
      if isCritical {
        critical[cur] := true;
        if !pending {
          since := now;
          pending := true;
        }
      }
    }

    method HandleCriticalLogTiming(timeout: int, now: int) returns (shouldUpload: bool)
      requires Valid()
      modifies this, data, store, critical
      ensures Valid() && Contents() == Tick(old(Contents()), timeout, now)
      ensures shouldUpload == TickSwaps(old(Contents()), timeout, now)
    {
      shouldUpload := pending && now - since >= timeout;
      if shouldUpload {
        ChangeDlogByteBuffer();
        pending := false;
      }
    }

    method ClearRetiredPlane()
      requires Valid()
      modifies this, data, store, critical
      ensures Valid() && Contents() == ClearOldest(old(Contents()))
    {
      data[oldest] := [];
      status := Use;
      store[oldest] := 0;
      critical[oldest] := false;
    }
  }
}

/** Choosing a storage for a request body, keeping it in the request context, and the usage counters over whole
    runs (common/body_storage.go, common/disk_cache_config.go, common/gin.go). */
module BodyCache {
  import opened Basics
  import opened BodyStorage

  const MIB := 0x10_0000

  datatype Config = Config(enabled: bool, thresholdMB: int, maxSizeMB: int)

  /** IsDiskCacheAvailable. */
  predicate Available(cfg: Config, counts: Counters, size: int) {
    cfg.enabled && counts.diskBytes + size <= cfg.maxSizeMB * MIB
  }

  predicate WantsDisk(cfg: Config, counts: Counters, size: int) {
    cfg.enabled && size >= cfg.thresholdMB * MIB && Available(cfg, counts, size)
  }

  /** The declared length sends the body straight to disk, before it is read. */
  predicate Direct(cfg: Config, counts: Counters, contentLength: int) {
    contentLength > 0 && WantsDisk(cfg, counts, contentLength)
  }

  /** io.LimitReader. */
  function Limited(body: Bytes, n: int): Bytes {
    body[..if n <= 0 then 0 else Min(n, |body|)]
  }

  // ---------------------------------------------------------------- creation

  datatype Store = Store(disk: bool, size: nat, open: bool)

  datatype World = World(counts: Counters, stores: seq<Store>)

  datatype Event =
    | FromReader(length: nat, contentLength: int, maxBytes: int, readerOk: bool, diskOk: bool)
    | FromBytes(length: nat, diskOk: bool)
    | CloseStore(index: nat)

  /** Where a creation puts its body (on disk or not), if it makes a storage. */
  function Placed(cfg: Config, counts: Counters, e: Event): Option<bool> {
    match e
    case FromReader(length, contentLength, maxBytes, readerOk, diskOk) =>
      var direct := Direct(cfg, counts, contentLength);
      if !readerOk || (direct && !diskOk) || length > maxBytes then None
      else Some(direct || (WantsDisk(cfg, counts, length) && diskOk))
    case FromBytes(length, diskOk) => Some(WantsDisk(cfg, counts, length) && diskOk)
    case CloseStore(_) => None
  }

  datatype Handle = Memory(memory: MemoryStorage) | Disk(disk: DiskStorage)

  function Footprint(h: Handle): set<object> {
    match h
    case Memory(m) => {m}
    case Disk(d) => {d, d.file}
  }

  predicate IsValid(h: Handle)
    reads Footprint(h)
  {
    match h
    case Memory(m) => m.Valid()
    case Disk(d) => d.Valid()
  }

  function BodyOf(h: Handle): Body
    reads Footprint(h)
  {
    match h
    case Memory(m) => m.Abs()
    case Disk(d) => d.Abs()
  }

  datatype Created = Stored(handle: Handle) | TooLarge | Failed

  method CreateBodyStorage(cfg: Config, stats: Stats, data: Bytes, diskOk: bool) returns (h: Handle)
    modifies stats
    ensures fresh(Footprint(h)) && IsValid(h) && BodyOf(h) == Body(data, 0, false)
    ensures Placed(cfg, old(stats.Counts()), FromBytes(|data|, diskOk)) == Some(h.Disk?)
    ensures stats.Counts() == Opened(old(stats.Counts()), h.Disk?, |data|)
  {
    if WantsDisk(cfg, stats.Counts(), |data|) && diskOk {
      var d := new DiskStorage(data, stats);
      return Disk(d);
    }
    var m := new MemoryStorage(data, stats);
    h := Memory(m);
  }

  /** When no I/O fails the reader is accepted exactly when it holds at most maxBytes bytes, and what is stored is
      the whole of it; a refusal leaves the counters alone. */
  method CreateBodyStorageFromReader(cfg: Config, stats: Stats, body: Bytes, contentLength: int, maxBytes: int,
                                     readerOk: bool, diskOk: bool) returns (r: Created)
    modifies stats
    ensures r.Failed? <==> !readerOk || (Direct(cfg, old(stats.Counts()), contentLength) && !diskOk)
    ensures !r.Failed? ==> (r.Stored? <==> |body| <= maxBytes)
    ensures r.Stored? ==>
              && fresh(Footprint(r.handle)) && IsValid(r.handle) && BodyOf(r.handle) == Body(body, 0, false)
              && stats.Counts() == Opened(old(stats.Counts()), r.handle.Disk?, |body|)
    ensures !r.Stored? ==> stats.Counts() == old(stats.Counts())
    ensures Placed(cfg, old(stats.Counts()), FromReader(|body|, contentLength, maxBytes, readerOk, diskOk)) ==
            if r.Stored? then Some(r.handle.Disk?) else None
  {
    if Direct(cfg, stats.Counts(), contentLength) {
      if !diskOk || !readerOk { return Failed; }
      var written := Limited(body, maxBytes + 1);
      if |written| > maxBytes { return TooLarge; }
      assert written == body;
      var d := new DiskStorage(written, stats);
      return Stored(Disk(d));
    }
    if !readerOk { return Failed; }
    var data := Limited(body, maxBytes + 1);
    if |data| > maxBytes { return TooLarge; }
    assert data == body;
    var h := CreateBodyStorage(cfg, stats, data, diskOk);
    r := Stored(h);
  }

  method Do(h: Handle, op: Op, stats: Stats) returns (out: Out)
    requires IsValid(h)
    modifies Footprint(h), stats
    ensures IsValid(h) && BodyOf(h) == Exec(old(BodyOf(h)), op)
    ensures out == if h.Disk? then DiskAnswer(old(BodyOf(h)), op) else Answer(old(BodyOf(h)), op)
    ensures stats.Counts() == if op.Close? && !old(BodyOf(h)).closed
                              then Released(old(stats.Counts()), h.Disk?, |BodyOf(h).contents|)
                              else old(stats.Counts())
  {
    match h {
      case Memory(m) => out := m.Do(op, stats);
      case Disk(d) => out := d.Do(op, stats);
    }
  }

  // ---------------------------------------------------------------- the request context

  /** constant.MaxRequestBodyMB in bytes, 128 MB when it is not set. */
  function MaxBytes(maxRequestBodyMB: int): int {
    (if maxRequestBodyMB <= 0 then 128 else maxRequestBodyMB) * MIB
  }

  /** The gin context: the cached storage, the older cached bytes, and the request with its unread body. */
  class Context {
    var storage: Option<Handle>
    var cached: Option<Bytes>
    var body: Bytes
    const contentLength: int

    constructor (request: Bytes, declared: int)
      ensures storage == None && cached == None && body == request && contentLength == declared
    {
      storage, cached, body, contentLength := None, None, request, declared;
    }

    predicate Ready()
      reads this, if storage.Some? then Footprint(storage.value) else {}
    {
      storage.Some? ==> this !in Footprint(storage.value) && IsValid(storage.value)
    }

    /** GetRequestBody and GetBodyStorage. A storage already made is rewound and handed out again, never rebuilt;
        otherwise one is made from the whole request, at offset 0. */
    method GetRequestBody(cfg: Config, stats: Stats, maxRequestBodyMB: int, readerOk: bool, diskOk: bool)
      returns (r: Created)
      requires Ready()
      modifies this, stats, if storage.Some? then Footprint(storage.value) else {}
      ensures Ready() && (r.Stored? ==> storage == Some(r.handle))
      ensures old(storage.Some?) ==>
                && storage == old(storage) && body == old(body) && stats.Counts() == old(stats.Counts())
                && (r.Failed? <==> old(BodyOf(storage.value)).closed) && !r.TooLarge?
                && (r.Stored? ==> BodyOf(r.handle) == old(BodyOf(storage.value)).(pos := 0))
      ensures old(storage.None? && cached.Some?) ==>
                && r.Stored? && BodyOf(r.handle) == Body(old(cached.value), 0, false)
                && Placed(cfg, old(stats.Counts()), FromBytes(|old(cached).value|, diskOk)) == Some(r.handle.Disk?)
                && stats.Counts() == Opened(old(stats.Counts()), r.handle.Disk?, |old(cached).value|)
      ensures old(storage.None? && cached.None?) ==>
                var maxBytes := MaxBytes(maxRequestBodyMB);
                && (r.Failed? <==> !readerOk || (Direct(cfg, old(stats.Counts()), contentLength) && !diskOk))
                && (!r.Failed? ==>
                      (r.Stored? <==>
                       |old(body)| <= (if maxRequestBodyMB <= 0 then 128 else maxRequestBodyMB) * 1024 * 1024))
                && (r.Stored? ==> BodyOf(r.handle) == Body(old(body), 0, false) &&
                                  stats.Counts() == Opened(old(stats.Counts()), r.handle.Disk?, |old(body)|))
                && (!r.Stored? ==> storage == None && stats.Counts() == old(stats.Counts()))
                && Placed(cfg, old(stats.Counts()),
                      FromReader(|old(body)|, contentLength, maxBytes, readerOk, diskOk)) ==
                   if r.Stored? then Some(r.handle.Disk?) else None
    {
      if storage.Some? {
        var out := Do(storage.value, REWIND, stats);
        if out == At(0) {
          return Stored(storage.value);
        }
        return Failed;
      }
      if cached.Some? {
        var h := CreateBodyStorage(cfg, stats, cached.value, diskOk);
        storage := Some(h);
        return Stored(h);
      }
      r := CreateBodyStorageFromReader(cfg, stats, body, contentLength, MaxBytes(maxRequestBodyMB), readerOk, diskOk);
      body := [];
      if r.Stored? {
        storage := Some(r.handle);
      }
    }

    method CleanupBodyStorage(stats: Stats)
      requires Ready()
      modifies this, stats, if storage.Some? then Footprint(storage.value) else {}
      ensures storage == None
      ensures old(storage.Some?) ==>
                var h := old(storage).value;
                && BodyOf(h).closed
                && stats.Counts() == if old(BodyOf(storage.value)).closed then old(stats.Counts())
                                     else Released(old(stats.Counts()), h.Disk?, |BodyOf(h).contents|)
      ensures old(storage.None?) ==> stats.Counts() == old(stats.Counts())
    {
      if storage.Some? {
        var _ := Do(storage.value, Close, stats);
        storage := None;
      }
    }
  }

  // ---------------------------------------------------------------- where a body goes, written out

  /** Disk caching is on, and the size is at least the threshold and fits under the maximum with what is on disk. */
  predicate FitsDisk(cfg: Config, used: int, size: int) {
    && cfg.enabled && size >= cfg.thresholdMB * 1024 * 1024
    && used + size <= cfg.maxSizeMB * 1024 * 1024
  }

  /** Bytes at hand go to disk iff they fit there and the file can be written. A reader goes to disk unread iff its
      declared length is positive and fits, and then must not fail; otherwise it is read and treated as
      bytes; and it is refused when it fails or is longer than allowed. */
  lemma PlacedWrittenOut(cfg: Config, counts: Counters, e: Event)
    ensures e.FromBytes? ==> Placed(cfg, counts, e) == Some(FitsDisk(cfg, counts.diskBytes, e.length) && e.diskOk)
    ensures e.FromReader? ==>
              var declared := e.contentLength > 0 && FitsDisk(cfg, counts.diskBytes, e.contentLength);
              && (Placed(cfg, counts, e).Some? <==>
                    e.readerOk && e.length <= e.maxBytes && (declared ==> e.diskOk))
              && (Placed(cfg, counts, e).Some? ==>
                    (Placed(cfg, counts, e).value <==>
                     declared || (FitsDisk(cfg, counts.diskBytes, e.length) && e.diskOk)))
  {
  }

  // ---------------------------------------------------------------- counters over whole runs

  function Closed(w: World, i: nat): World
    requires i < |w.stores|
  {
    World(Released(w.counts, w.stores[i].disk, w.stores[i].size), w.stores[i := w.stores[i].(open := false)])
  }

  function Next(cfg: Config, w: World, e: Event): World {
    match e
    case CloseStore(i) => if i < |w.stores| && w.stores[i].open then Closed(w, i) else w
    case _ =>
      var placed := Placed(cfg, w.counts, e);
      if placed.Some? then
        World(Opened(w.counts, placed.value, e.length), w.stores + [Store(placed.value, e.length, true)])
      else w
  }

  function Run(cfg: Config, events: seq<Event>): World {
    if events == [] then World(Counters(0, 0, 0, 0), [])
    else Next(cfg, Run(cfg, events[..|events| - 1]), events[|events| - 1])
  }

  function OpenCount(stores: seq<Store>, disk: bool): nat {
    if stores == [] then 0
    else
      var last := stores[|stores| - 1];
      OpenCount(stores[..|stores| - 1], disk) + if last.open && last.disk == disk then 1 else 0
  }

  function OpenBytes(stores: seq<Store>, disk: bool): nat {
    if stores == [] then 0
    else
      var last := stores[|stores| - 1];
      OpenBytes(stores[..|stores| - 1], disk) + if last.open && last.disk == disk then last.size else 0
  }

  /** The counters that describe exactly the open storages. */
  function Tally(stores: seq<Store>): Counters {
    Counters(OpenCount(stores, true), OpenBytes(stores, true), OpenCount(stores, false), OpenBytes(stores, false))
  }

  lemma TallyAdd(stores: seq<Store>, s: Store)
    requires s.open
    ensures Tally(stores + [s]) == Opened(Tally(stores), s.disk, s.size)
  {
    assert (stores + [s])[..|stores|] == stores;
  }

  lemma {:induction false} CloseOne(stores: seq<Store>, i: nat, disk: bool)
    requires i < |stores| && stores[i].open
    ensures var after := stores[i := stores[i].(open := false)]; var mine := stores[i].disk == disk;
            && OpenCount(stores, disk) == OpenCount(after, disk) + (if mine then 1 else 0)
            && OpenBytes(stores, disk) == OpenBytes(after, disk) + (if mine then stores[i].size else 0)
  {
    var k := |stores| - 1;
    var after := stores[i := stores[i].(open := false)];
    if i == k {
      assert after[..k] == stores[..k];
    } else {
      CloseOne(stores[..k], i, disk);
      assert after[..k] == stores[..k][i := stores[..k][i].(open := false)];
    }
  }

  /** THE COUNTERS ARE EXACT in every run: the clamp at zero never fires. */
  lemma {:induction false} CountersExact(cfg: Config, events: seq<Event>)
    ensures Run(cfg, events).counts == Tally(Run(cfg, events).stores)
  {
    if events != [] {
      var k := |events| - 1;
      CountersExact(cfg, events[..k]);
      var w, e := Run(cfg, events[..k]), events[k];
      if e.CloseStore? {
        if e.index < |w.stores| && w.stores[e.index].open {
          CloseOne(w.stores, e.index, true);
          CloseOne(w.stores, e.index, false);
        }
      } else {
        var placed := Placed(cfg, w.counts, e);
        if placed.Some? {
          TallyAdd(w.stores, Store(placed.value, e.length, true));
        }
      }
    }
  }

  predicate HonestLength(e: Event) {
    e.FromReader? && e.contentLength > 0 ==> e.length <= e.contentLength
  }

  predicate WithinLimit(cfg: Config, counts: Counters) {
    counts.diskBytes == 0 || counts.diskBytes <= cfg.maxSizeMB * MIB
  }

  lemma CreationWithinLimit(cfg: Config, w: World, e: Event)
    requires !e.CloseStore? && HonestLength(e) && WithinLimit(cfg, w.counts)
    ensures WithinLimit(cfg, Next(cfg, w, e).counts)
  {
  }

  lemma CloseWithinLimit(cfg: Config, w: World, i: nat)
    requires WithinLimit(cfg, w.counts) && w.counts.diskBytes >= 0
    ensures WithinLimit(cfg, Next(cfg, w, CloseStore(i)).counts)
  {
  }

  lemma {:induction false} RunWithinLimit(cfg: Config, events: seq<Event>)
    requires forall i :: 0 <= i < |events| ==> HonestLength(events[i])
    ensures WithinLimit(cfg, Run(cfg, events).counts)
  {
    if events != [] {
      var k := |events| - 1;
      var w := Run(cfg, events[..k]);
      RunWithinLimit(cfg, events[..k]);
      if events[k].CloseStore? {
        CountersExact(cfg, events[..k]);
        CloseWithinLimit(cfg, w, events[k].index);
      } else {
        CreationWithinLimit(cfg, w, events[k]);
      }
    }
  }

  /** THE DISK LIMIT HOLDS in every run whose bodies are no longer than declared. */
  lemma DiskUsageBounded(cfg: Config, events: seq<Event>)
    requires forall i :: 0 <= i < |events| ==> HonestLength(events[i])
    ensures var used := OpenBytes(Run(cfg, events).stores, true); used == 0 || used <= cfg.maxSizeMB * MIB
  {
    RunWithinLimit(cfg, events);
    CountersExact(cfg, events);
  }

  /** With disk caching off nothing ever goes to disk. */
  lemma {:induction false} NoDiskWhenOff(cfg: Config, events: seq<Event>)
    requires !cfg.enabled
    ensures forall i :: 0 <= i < |Run(cfg, events).stores| ==> !Run(cfg, events).stores[i].disk
  {
    if events != [] {
      var k := |events| - 1;
      NoDiskWhenOff(cfg, events[..k]);
      PlacedWrittenOut(cfg, Run(cfg, events[..k]).counts, events[k]);
    }
  }

  /** One creation takes the usage over the limit exactly when its body went to disk on a declared length that
      fitted while its real length did not. */
  lemma OverrunIff(cfg: Config, w: World, e: Event)
    requires w.counts.diskBytes <= cfg.maxSizeMB * MIB && !e.CloseStore?
    ensures Next(cfg, w, e).counts.diskBytes > cfg.maxSizeMB * MIB <==>
            && e.FromReader? && e.readerOk && e.diskOk && e.length <= e.maxBytes
            && Direct(cfg, w.counts, e.contentLength)
            && w.counts.diskBytes + e.length > cfg.maxSizeMB * MIB
  {
    if e.FromReader? && Placed(cfg, w.counts, e) == Some(true) && !Direct(cfg, w.counts, e.contentLength) {
      assert Available(cfg, w.counts, e.length);
    }
  }

  // ---------------------------------------------------------------- the storages of a process

  function StoreOf(h: Handle): Store
    reads Footprint(h)
  {
    Store(h.Disk?, |BodyOf(h).contents|, !BodyOf(h).closed)
  }

  /** Closing an open storage keeps the counters exact. */
  lemma ClosedTally(w: World, i: nat)
    requires i < |w.stores| && w.stores[i].open && w.counts == Tally(w.stores)
    ensures Closed(w, i).counts == Tally(Closed(w, i).stores)
  {
    CloseOne(w.stores, i, true);
    CloseOne(w.stores, i, false);
  }

  /** The counters of a process and every storage it ever made, with what each is. */
  class Process {
    const stats: Stats
    var handles: seq<Handle>
    ghost var stores: seq<Store>

    ghost function Repr(): set<object>
      reads this
    {
      {this, stats} + set h, o | h in handles && o in Footprint(h) :: o
    }

    /** No two storages share an object. */
    ghost predicate Separate()
      reads this
    {
      && (forall h :: h in handles ==> Footprint(h) !! {this, stats})
      && (forall i, j :: 0 <= i < j < |handles| ==> Footprint(handles[i]) !! Footprint(handles[j]))
    }

    ghost predicate Listed()
      reads Repr()
    {
      && |stores| == |handles|
      && (forall i :: 0 <= i < |handles| ==> IsValid(handles[i]) && StoreOf(handles[i]) == stores[i])
    }

    /** The counters describe exactly the storages that are open. */
    ghost predicate Valid()
      reads Repr()
    {
      Separate() && Listed() && stats.Counts() == Tally(stores)
    }

    ghost function Abs(): World
      reads this, stats
    {
      World(stats.Counts(), stores)
    }

    constructor ()
      ensures Valid() && fresh(Repr()) && Abs() == World(Counters(0, 0, 0, 0), [])
    {
      stats := new Stats();
      handles, stores := [], [];
    }

    /** Takes a new storage into the list. */
    method Register(h: Handle)
      requires Separate() && Listed() && IsValid(h) && StoreOf(h).open
      requires Footprint(h) !! Repr()
      requires stats.Counts() == Opened(Tally(stores), h.Disk?, StoreOf(h).size)
      modifies this
      ensures Valid() && handles == old(handles) + [h] && stores == old(stores) + [old(StoreOf(h))]
    {
      TallyAdd(stores, StoreOf(h));
      handles, stores := handles + [h], stores + [StoreOf(h)];
    }

    method Create(cfg: Config, data: Bytes, diskOk: bool) returns (h: Handle)
      requires Valid()
      modifies this, stats
      ensures Valid() && handles == old(handles) + [h] && fresh(Footprint(h))
      ensures Abs() == Next(cfg, old(Abs()), FromBytes(|data|, diskOk))
    {
      h := CreateBodyStorage(cfg, stats, data, diskOk);
      Register(h);
    }

    method CreateFromReader(cfg: Config, body: Bytes, contentLength: int, maxBytes: int, readerOk: bool, diskOk: bool)
      returns (r: Created)
      requires Valid()
      modifies this, stats
      ensures Valid()
      ensures r.Stored? ==> handles == old(handles) + [r.handle] && fresh(Footprint(r.handle))
      ensures !r.Stored? ==> handles == old(handles)
      ensures Abs() == Next(cfg, old(Abs()), FromReader(|body|, contentLength, maxBytes, readerOk, diskOk))
    {
      r := CreateBodyStorageFromReader(cfg, stats, body, contentLength, maxBytes, readerOk, diskOk);
      if !r.Stored? {
        return;
      }
      ghost var made := StoreOf(r.handle);
      assert made == Store(r.handle.Disk?, |body|, true);
      Register(r.handle);
    }

    /** Any operation on any storage; only the close of an open one touches the counters. */
    method Use(i: nat, op: Op) returns (out: Out)
      requires Valid() && i < |handles|
      modifies this`stores, stats, Footprint(handles[i])
      ensures Valid() && handles == old(handles)
      ensures Abs() == if op.Close? && old(stores)[i].open then Closed(old(Abs()), i) else old(Abs())
    {
      ghost var before := Abs();
      assert handles[i] in handles;
      out := Do(handles[i], op, stats);
      if op.Close? && before.stores[i].open {
        ClosedTally(before, i);
        stores := Closed(before, i).stores;
      }
      forall j | 0 <= j < |handles| ensures IsValid(handles[j]) && StoreOf(handles[j]) == stores[j] {
        if j != i {
          assert Footprint(handles[j]) !! Footprint(handles[i]) && handles[j] in handles;
        }
      }
    }
  }
}

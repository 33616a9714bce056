/**
 The shared index of the rolling chunk cache: which chunks are on disk, which
 are being fetched, how many bytes that costs, and what each locked section of
 internal/cache/rolling.go does to it.

 Every function here is one mutex-protected section. A section that deletes
 files takes the number of deletions that succeed before the file system
 refuses one, so each outcome of os.Remove is covered.
 */
module CacheModel {
  import opened Options
  import opened Bytes
  import opened Numbers
  import opened Sums

  // The cache key of an object is a hash of these three; it is taken to be injective.
  datatype Object = Object(provider: string, objectID: string, validator: string)

  datatype Key = Key(obj: Object, index: int)

  // bytes is the content of the chunk's file.
  datatype Chunk = Chunk(size: nat, pins: nat, lastAccess: nat, bytes: seq<Byte>)

  datatype Kind = Foreground | ReadAhead | NextEpisode

  datatype Fetch = Fetch(expected: nat, kind: Kind, call: nat)

  datatype Index = Index(
    chunks: map<Key, Chunk>,
    inflight: map<Key, Fetch>,
    current: int,
    reserved: int,
    highWater: int,
    tick: nat)

  // remote is the immutable content behind each object.
  datatype World = World(rolling: bool, chunkBytes: int, maxBytes: int, remote: Object -> seq<Byte>)

  ghost predicate ValidWorld(w: World)
  {
    w.chunkBytes > 0 && (w.rolling ==> w.chunkBytes <= w.maxBytes)
  }

  function Size(w: World, o: Object): nat { |w.remote(o)| }

  // May be zero or negative past the end of the object.
  function ChunkLength(w: World, logicalSize: int, index: int): int
  {
    var remaining := logicalSize - index * w.chunkBytes;
    if remaining < w.chunkBytes then remaining else w.chunkBytes
  }

  ghost predicate IsChunk(w: World, k: Key)
  {
    k.index >= 0 && ChunkLength(w, Size(w, k.obj), k.index) > 0
  }

  function ChunkSize(w: World, k: Key): int { ChunkLength(w, Size(w, k.obj), k.index) }

  lemma ChunkInRange(w: World, k: Key)
    requires ValidWorld(w) && IsChunk(w, k)
    ensures 0 <= k.index * w.chunkBytes < Size(w, k.obj)
    ensures k.index * w.chunkBytes + ChunkSize(w, k) <= Size(w, k.obj)
  {
    assert k.index * w.chunkBytes >= 0;
  }

  // The bytes of the remote object that chunk k must hold.
  ghost function Slice(w: World, k: Key): seq<Byte>
    requires ValidWorld(w) && IsChunk(w, k)
  {
    ChunkInRange(w, k);
    w.remote(k.obj)[k.index * w.chunkBytes..k.index * w.chunkBytes + ChunkSize(w, k)]
  }

  /******* Byte accounting *******/

  ghost function Sizes(chunks: map<Key, Chunk>): map<Key, nat> { map k | k in chunks :: chunks[k].size }

  ghost function Expected(inflight: map<Key, Fetch>): map<Key, nat> { map k | k in inflight :: inflight[k].expected }

  ghost function Of(m: map<Key, nat>, o: Object): map<Key, nat> { map k | k in m && k.obj == o :: m[k] }

  ghost function Usage(ix: Index, o: Object): nat
  {
    Sum(Of(Sizes(ix.chunks), o)) + Sum(Of(Expected(ix.inflight), o))
  }

  /******* Eviction *******/

  // What an eviction loop is trying to make room for, and which chunk it must spare.
  datatype Demand =
    | ForObject(obj: Object, limit: int, expected: int, spared: Option<Key>)
    | ForQuota(limit: int, expected: int, spared: Option<Key>)

  ghost predicate Fitting(ix: Index, d: Demand)
  {
    match d
    case ForObject(o, limit, expected, _) => Usage(ix, o) + expected <= limit
    case ForQuota(limit, expected, _) => ix.current + ix.reserved + expected <= limit
  }

  predicate Eligible(ix: Index, d: Demand, k: Key)
  {
    && k in ix.chunks
    && ix.chunks[k].pins == 0
    && d.spared != Some(k)
    && (d.ForObject? ==> k.obj == d.obj)
  }

  ghost predicate Oldest(ix: Index, d: Demand, k: Key)
  {
    && Eligible(ix, d, k)
    && forall j | Eligible(ix, d, j) :: ix.chunks[k].lastAccess <= ix.chunks[j].lastAccess
  }

  ghost function Victim(ix: Index, d: Demand): (k: Key)
    requires exists k :: Oldest(ix, d, k)
    ensures k in ix.chunks && Oldest(ix, d, k)
  {
    var k :| Oldest(ix, d, k);
    k
  }

  ghost function Evict(ix: Index, k: Key): Index
    requires k in ix.chunks
  {
    ix.(chunks := ix.chunks - {k}, current := ix.current - ix.chunks[k].size)
  }

  datatype Space = Fits | NoVictim | RemoveFailed

  datatype Evicted = Evicted(ix: Index, space: Space)

  // The eviction loop: drop the oldest eligible chunk until the demand fits.
  ghost function EvictUntil(ix: Index, d: Demand, removals: nat): Evicted
    decreases |ix.chunks|
  {
    if Fitting(ix, d) then Evicted(ix, Fits)
    else if !exists k :: Oldest(ix, d, k) then Evicted(ix, NoVictim)
    else if removals == 0 then Evicted(ix, RemoveFailed)
    else EvictUntil(Evict(ix, Victim(ix, d)), d, removals - 1)
  }

  /******* Reservations *******/

  datatype Grant = Granted | Blocked | Failed

  datatype Reservation = Reservation(ix: Index, grant: Grant)

  // reserveLocked, together with the in-flight entry the caller adds at once.
  function Reserve(ix: Index, k: Key, fetch: Fetch): Index
  {
    ix.(inflight := ix.inflight[k := fetch],
        reserved := ix.reserved + fetch.expected,
        highWater := Max(ix.highWater, ix.current + ix.reserved + fetch.expected))
  }

  // The success path of an eviction loop, then what to do next.
  function AfterEviction(e: Evicted): Reservation
  {
    Reservation(e.ix, match e.space case Fits => Granted case NoVictim => Blocked case RemoveFailed => Failed)
  }

  // How many deletions succeed in each of the two eviction loops of a reservation.
  datatype Disk = Disk(forObject: nat, forQuota: nat)

  ghost function KeepIncomplete(w: World, o: Object, expected: int, spared: Option<Key>): Demand
  {
    ForObject(o, Size(w, o) - 1, expected, spared)
  }

  ghost function TryReserve(w: World, ix: Index, k: Key, call: nat, disk: Disk): Reservation
    requires IsChunk(w, k)
  {
    var fetch := Fetch(ChunkSize(w, k), Foreground, call);
    if !w.rolling then Reservation(Reserve(ix, k, fetch), Granted)
    else
      var first := AfterEviction(EvictUntil(ix, KeepIncomplete(w, k.obj, fetch.expected, None), disk.forObject));
      if first.grant != Granted then first
      else
        var second := AfterEviction(EvictUntil(first.ix, ForQuota(w.maxBytes, fetch.expected, None), disk.forQuota));
        if second.grant != Granted then second
        else Reservation(Reserve(second.ix, k, fetch), Granted)
  }

  ghost function TryReserveBackground(w: World, ix: Index, k: Key, kind: Kind, spared: Option<Key>, call: nat, disk: Disk): Reservation
    requires IsChunk(w, k)
  {
    var fetch := Fetch(ChunkSize(w, k), kind, call);
    var quota := ForQuota(w.maxBytes - w.chunkBytes, fetch.expected, spared);
    if !w.rolling then Reservation(Reserve(ix, k, fetch), Granted)
    else
      var first := AfterEviction(EvictUntil(ix, KeepIncomplete(w, k.obj, fetch.expected, spared), disk.forObject));
      if first.grant != Granted then first
      else if kind == NextEpisode && !Fitting(first.ix, quota) then Reservation(first.ix, Blocked)
      else
        var second := AfterEviction(EvictUntil(first.ix, quota, disk.forQuota));
        if second.grant != Granted then second
        else Reservation(Reserve(second.ix, k, fetch), Granted)
  }

  /******* Pins and fetch completion *******/

  function Pin(ix: Index, k: Key): Index
    requires k in ix.chunks
  {
    var c := ix.chunks[k];
    ix.(tick := ix.tick + 1, chunks := ix.chunks[k := c.(lastAccess := ix.tick + 1, pins := c.pins + 1)])
  }

  function Unpin(ix: Index, k: Key): Index
    requires k in ix.chunks && ix.chunks[k].pins > 0
  {
    var c := ix.chunks[k];
    ix.(chunks := ix.chunks[k := c.(pins := c.pins - 1)])
  }

  // runFetch's locked section; stored is the downloaded chunk, if any.
  function EndFetch(ix: Index, k: Key, stored: Option<seq<Byte>>): Index
    requires k in ix.inflight
  {
    var expected := ix.inflight[k].expected;
    var ended := ix.(reserved := ix.reserved - expected, inflight := ix.inflight - {k});
    match stored
    case None => ended
    case Some(bytes) =>
      ended.(current := ix.current + expected,
             tick := ix.tick + 1,
             chunks := ix.chunks[k := Chunk(expected, 0, ix.tick + 1, bytes)])
  }

  // One pass of acquireChunk's loop under the lock.
  datatype Pass = Hit | Wait(call: nat) | Started | Full | Refused

  datatype Acquired = Acquired(ix: Index, pass: Pass)

  ghost function AcquirePass(w: World, ix: Index, k: Key, call: nat, disk: Disk): Acquired
    requires IsChunk(w, k)
  {
    if k in ix.chunks then Acquired(Pin(ix, k), Hit)
    else if k in ix.inflight then Acquired(ix, Wait(ix.inflight[k].call))
    else
      var r := TryReserve(w, ix, k, call, disk);
      Acquired(r.ix, match r.grant case Granted => Started case Blocked => Full case Failed => Refused)
  }

  /******* The invariant *******/

  ghost predicate Accounted(ix: Index)
  {
    && ix.current == Sum(Sizes(ix.chunks))
    && ix.reserved == Sum(Expected(ix.inflight))
    && ix.chunks.Keys !! ix.inflight.Keys
  }

  ghost predicate Stamped(ix: Index)
  {
    && (forall k | k in ix.chunks :: ix.chunks[k].lastAccess <= ix.tick)
    && (forall j, k | j in ix.chunks && k in ix.chunks && j != k :: ix.chunks[j].lastAccess != ix.chunks[k].lastAccess)
  }

  ghost predicate Faithful(w: World, ix: Index)
    requires ValidWorld(w)
  {
    && (forall k | k in ix.chunks :: IsChunk(w, k) && ix.chunks[k].bytes == Slice(w, k) && ix.chunks[k].size == ChunkSize(w, k))
    && (forall k | k in ix.inflight :: IsChunk(w, k) && ix.inflight[k].expected == ChunkSize(w, k))
  }

  ghost predicate WithinQuota(w: World, ix: Index)
  {
    ix.current + ix.reserved <= ix.highWater && (w.rolling ==> ix.highWater <= w.maxBytes)
  }

  ghost predicate Tidy(w: World, ix: Index)
    requires ValidWorld(w)
  {
    Accounted(ix) && Stamped(ix) && Faithful(w, ix)
  }

  ghost predicate Sound(w: World, ix: Index)
    requires ValidWorld(w)
  {
    Tidy(w, ix) && WithinQuota(w, ix)
  }
}

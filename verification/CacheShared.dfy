/**
 rollingShared: the mutable index and its locked sections, each proved to do
 exactly what the section functions of CacheModel say.
 */
module CacheShared {
  import opened Options
  import opened Bytes
  import opened Sums
  import opened CacheModel
  import opened CacheIndexProofs
  import opened CacheRecovery

  lemma SoundStamped(w: World, ix: Index)
    requires ValidWorld(w) && Sound(w, ix)
    ensures Stamped(ix)
  {
  }

  lemma TidyStamped(w: World, ix: Index)
    requires ValidWorld(w) && Tidy(w, ix)
    ensures Stamped(ix)
  {
  }

  class RollingShared {
    const w: World
    var chunks: map<Key, Chunk>
    var inflight: map<Key, Fetch>
    var current: int
    var reserved: int
    var highWater: int
    var tick: nat

    constructor (w: World)
      ensures this.w == w && View() == Loaded([])
    {
      this.w := w;
      chunks, inflight, current, reserved, highWater, tick := map[], map[], 0, 0, 0, 0;
    }

    ghost function View(): Index
      reads this
    {
      Index(chunks, inflight, current, reserved, highWater, tick)
    }

    // objectUsageLocked: both maps are walked in an arbitrary order.
    method ObjectUsage(o: Object) returns (usage: int)
      ensures usage == Usage(View(), o)
    {
      hide Of, Sizes, Expected, Sum;
      usage := 0;
      var left := chunks;
      while left != map[]
        invariant usage + Sum(Of(Sizes(left), o)) == Sum(Of(Sizes(chunks), o))
        decreases |left|
      {
        var k :| k in left;
        TakeChunk(left, k, o);
        if k.obj == o { usage := usage + left[k].size; }
        left := left - {k};
      }
      TakenAll(o);
      var calls := inflight;
      while calls != map[]
        invariant usage + Sum(Of(Expected(calls), o)) == Usage(View(), o)
        decreases |calls|
      {
        var k :| k in calls;
        TakeFetch(calls, k, o);
        if k.obj == o { usage := usage + calls[k].expected; }
        calls := calls - {k};
      }
      TakenAll(o);
    }

    // oldestUnpinned...Locked: a scan for the least recently used eligible chunk.
    method OldestUnpinned(d: Demand) returns (selected: Option<Key>)
      ensures selected.None? <==> forall k :: !Eligible(View(), d, k)
      ensures selected.Some? ==> Oldest(View(), d, selected.value)
    {
      selected := None;
      var left := chunks.Keys;
      while left != {}
        invariant left <= chunks.Keys
        invariant selected.None? ==> forall k | k in chunks && k !in left :: !Eligible(View(), d, k)
        invariant selected.Some? ==> Eligible(View(), d, selected.value)
        invariant selected.Some? ==> forall k | k in chunks && k !in left && Eligible(View(), d, k) ::
                    chunks[selected.value].lastAccess <= chunks[k].lastAccess
        decreases left
      {
        var k :| k in left;
        left := left - {k};
        if Eligible(Index(chunks, inflight, current, reserved, highWater, tick), d, k) {
          if selected.None? || chunks[k].lastAccess < chunks[selected.value].lastAccess {
            selected := Some(k);
          }
        }
      }
    }

    method FitsNow(d: Demand) returns (fits: bool)
      ensures fits <==> Fitting(View(), d)
    {
      match d
      case ForObject(o, limit, expected, _) =>
        var usage := ObjectUsage(o);
        fits := usage + expected <= limit;
      case ForQuota(limit, expected, _) =>
        fits := current + reserved + expected <= limit;
    }

    // The eviction loop shared by every reservation and by recovery.
    method MakeRoom(d: Demand, removals: nat) returns (space: Space)
      requires Stamped(View())
      modifies this`chunks, this`current
      ensures EvictUntil(old(View()), d, removals) == Evicted(View(), space)
    {
      hide EvictUntil, Stamped, Fitting, Oldest;
      var left := removals;
      ghost var goal := EvictUntil(View(), d, removals);
      while true
        invariant Stamped(View())
        invariant EvictUntil(View(), d, left) == goal
        decreases |chunks|
      {
        var fits := FitsNow(d);
        EvictUntilStops(View(), d, left);
        if fits { return Fits; }
        var victim := OldestUnpinned(d);
        if victim.None? { return NoVictim; }
        if left == 0 { return RemoveFailed; }
        EvictUntilTurn(View(), d, left, victim.value);
        assert victim.value in chunks;
        current := current - chunks[victim.value].size;
        chunks := chunks - {victim.value};
        left := left - 1;
      }
    }

    // reserveLocked and the in-flight entry.
    method Reserve(k: Key, fetch: Fetch)
      modifies this`inflight, this`reserved, this`highWater
      ensures View() == CacheModel.Reserve(old(View()), k, fetch)
    {
      reserved := reserved + fetch.expected;
      var usage := current + reserved;
      if usage > highWater { highWater := usage; }
      inflight := inflight[k := fetch];
    }

    method TryReserve(k: Key, call: nat, disk: Disk) returns (grant: Grant)
      requires ValidWorld(w) && Sound(w, View()) && IsChunk(w, k)
      modifies this`chunks, this`current, this`inflight, this`reserved, this`highWater
      ensures CacheModel.TryReserve(w, old(View()), k, call, disk) == Reservation(View(), grant)
    {
      hide EvictUntil, Fitting, Tidy, WithinQuota, Stamped;
      var expected := ChunkSize(w, k);
      if !w.rolling {
        Reserve(k, Fetch(expected, Foreground, call));
        return Granted;
      }
      ghost var before := View();
      var d1 := ForObject(k.obj, Size(w, k.obj) - 1, expected, None);
      assert Stamped(before) by { SoundStamped(w, before); }
      var space := MakeRoom(d1, disk.forObject);
      if space == NoVictim { return Blocked; }
      if space == RemoveFailed { return Failed; }
      assert Stamped(View()) by { EvictUntilSound(w, before, d1, disk.forObject); SoundStamped(w, View()); }
      space := MakeRoom(ForQuota(w.maxBytes, expected, None), disk.forQuota);
      if space == NoVictim { return Blocked; }
      if space == RemoveFailed { return Failed; }
      Reserve(k, Fetch(expected, Foreground, call));
      return Granted;
    }

    method TryReserveBackground(k: Key, kind: Kind, spared: Option<Key>, call: nat, disk: Disk) returns (grant: Grant)
      requires ValidWorld(w) && Sound(w, View()) && IsChunk(w, k)
      modifies this`chunks, this`current, this`inflight, this`reserved, this`highWater
      ensures CacheModel.TryReserveBackground(w, old(View()), k, kind, spared, call, disk) == Reservation(View(), grant)
    {
      hide EvictUntil, Fitting, Tidy, WithinQuota, Stamped;
      var expected := ChunkSize(w, k);
      if !w.rolling {
        Reserve(k, Fetch(expected, kind, call));
        return Granted;
      }
      ghost var before := View();
      var d1 := ForObject(k.obj, Size(w, k.obj) - 1, expected, spared);
      var d2 := ForQuota(w.maxBytes - w.chunkBytes, expected, spared);
      assert Stamped(before) by { SoundStamped(w, before); }
      var space := MakeRoom(d1, disk.forObject);
      if space == NoVictim { return Blocked; }
      if space == RemoveFailed { return Failed; }
      var fits := FitsNow(d2);
      if kind == NextEpisode && !fits { return Blocked; }
      assert Stamped(View()) by { EvictUntilSound(w, before, d1, disk.forObject); SoundStamped(w, View()); }
      space := MakeRoom(d2, disk.forQuota);
      if space == NoVictim { return Blocked; }
      if space == RemoveFailed { return Failed; }
      Reserve(k, Fetch(expected, kind, call));
      return Granted;
    }

    // One locked pass of acquireChunk.
    method Acquire(k: Key, call: nat, disk: Disk) returns (pass: Pass)
      requires ValidWorld(w) && Sound(w, View()) && IsChunk(w, k)
      modifies this
      ensures AcquirePass(w, old(View()), k, call, disk) == Acquired(View(), pass)
    {
      hide Tidy, WithinQuota, CacheModel.TryReserve;
      if k in chunks {
        tick := tick + 1;
        chunks := chunks[k := chunks[k].(lastAccess := tick, pins := chunks[k].pins + 1)];
        return Hit;
      }
      if k in inflight { return Wait(inflight[k].call); }
      var grant := TryReserve(k, call, disk);
      pass := match grant case Granted => Started case Blocked => Full case Failed => Refused;
    }

    // releaseChunk.
    method Release(k: Key)
      requires k in chunks && chunks[k].pins > 0
      modifies this`chunks
      ensures View() == Unpin(old(View()), k)
    {
      chunks := chunks[k := chunks[k].(pins := chunks[k].pins - 1)];
    }

    // The locked end of runFetch.
    method FinishFetch(k: Key, stored: Option<seq<Byte>>)
      requires k in inflight
      modifies this
      ensures View() == EndFetch(old(View()), k, stored)
    {
      var expected := inflight[k].expected;
      reserved := reserved - expected;
      if stored.Some? {
        current := current + expected;
        tick := tick + 1;
        chunks := chunks[k := Chunk(expected, 0, tick, stored.value)];
      }
      inflight := inflight - {k};
    }

    // recoverChunks on a fresh index.
    method RecoverChunks(listing: seq<Entry>, removals: nat) returns (ok: bool)
      requires ValidWorld(w) && OwnDirectory(w, listing) && View() == Loaded([])
      modifies this
      ensures var r := Recover(w, listing, removals); ok <==> r.Some?
      ensures ok ==> View() == Recover(w, listing, removals).value
    {
      hide EvictUntil, OwnDirectory, Tidy, Stamped, Ordered;
      ok := Listed(listing);
      if !ok { return; }
      var order := Ordered(listing);
      for i := 0 to |order|
        invariant View() == Loaded(order[..i])
      {
        assert order[..i + 1][..i] == order[..i];
        tick := tick + 1;
        chunks := chunks[order[i].key := Chunk(|order[i].bytes|, 0, tick, order[i].bytes)];
        current := current + |order[i].bytes|;
      }
      assert order[..|order|] == order;
      if w.rolling {
        assert Stamped(View()) by { LoadedOrderedTidy(w, listing); TidyStamped(w, View()); }
        var space := MakeRoom(ForQuota(w.maxBytes, 0, None), removals);
        if space != Fits { return false; }
      }
      highWater := current;
    }

    method Listed(listing: seq<Entry>) returns (ok: bool)
      ensures ok <==> forall e | e in listing :: Acceptable(w, e)
    {
      for i := 0 to |listing|
        invariant forall j | 0 <= j < i :: Acceptable(w, listing[j])
      {
        if !Acceptable(w, listing[i]) { return false; }
      }
      return true;
    }
  }
}

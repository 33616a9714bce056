/**
 What every locked section keeps: byte accounting, distinct access stamps,
 faithful chunk contents and the quota; and what an eviction loop removes.
 */
module CacheIndexProofs {
  import opened Options
  import opened Bytes
  import opened Sums
  import opened CacheModel

  /******* Sums over one object *******/

  lemma PartRemove(m: map<Key, nat>, k: Key, o: Object)
    requires k in m
    ensures Sum(Of(m - {k}, o)) == Sum(Of(m, o)) - (if k.obj == o then m[k] else 0)
  {
    if k.obj == o {
      SumRemove(Of(m, o), k);
      assert Of(m - {k}, o) == Of(m, o) - {k};
    } else {
      assert Of(m - {k}, o) == Of(m, o);
    }
  }

  lemma PartPut(m: map<Key, nat>, k: Key, v: nat, o: Object)
    requires k !in m
    ensures Sum(Of(m[k := v], o)) == Sum(Of(m, o)) + (if k.obj == o then v else 0)
  {
    PartRemove(m[k := v], k, o);
    assert m[k := v] - {k} == m;
  }

  // Walking a map of chunks, or of fetches, one entry at a time.
  lemma TakeChunk(chunks: map<Key, Chunk>, k: Key, o: Object)
    requires k in chunks
    ensures Sum(Of(Sizes(chunks), o)) == Sum(Of(Sizes(chunks - {k}), o)) + (if k.obj == o then chunks[k].size else 0)
  {
    assert Sizes(chunks - {k}) == Sizes(chunks) - {k};
    PartRemove(Sizes(chunks), k, o);
  }

  lemma TakeFetch(inflight: map<Key, Fetch>, k: Key, o: Object)
    requires k in inflight
    ensures Sum(Of(Expected(inflight), o)) == Sum(Of(Expected(inflight - {k}), o)) + (if k.obj == o then inflight[k].expected else 0)
  {
    assert Expected(inflight - {k}) == Expected(inflight) - {k};
    PartRemove(Expected(inflight), k, o);
  }

  lemma TakenAll(o: Object)
    ensures Sum(Of(Sizes(map[]), o)) == 0 && Sum(Of(Expected(map[]), o)) == 0
  {
    assert Of(Sizes(map[]), o) == map[] && Of(Expected(map[]), o) == map[];
  }

  /******* One eviction *******/

  lemma EvictUsage(ix: Index, k: Key, o: Object)
    requires k in ix.chunks
    ensures Usage(Evict(ix, k), o) == Usage(ix, o) - (if k.obj == o then ix.chunks[k].size else 0)
  {
    TakeChunk(ix.chunks, k, o);
  }

  lemma EvictTidy(w: World, ix: Index, k: Key)
    requires ValidWorld(w) && Tidy(w, ix) && k in ix.chunks
    ensures Tidy(w, Evict(ix, k))
  {
    EvictAccounted(ix, k);
  }

  lemma EvictAccounted(ix: Index, k: Key)
    requires Accounted(ix) && k in ix.chunks
    ensures Accounted(Evict(ix, k))
  {
    assert Sizes(ix.chunks - {k}) == Sizes(ix.chunks) - {k};
    SumRemove(Sizes(ix.chunks), k);
  }

  /******* Victims *******/

  // A victim exists exactly when something may be evicted.
  lemma OldestExists(ix: Index, d: Demand, k: Key)
    requires Eligible(ix, d, k)
    ensures exists j :: Oldest(ix, d, j)
  {
    var among := set j | j in ix.chunks && Eligible(ix, d, j);
    OldestOf(ix, d, among, k);
  }

  lemma {:induction false} OldestOf(ix: Index, d: Demand, among: set<Key>, k: Key)
    requires k in among
    requires forall j :: j in among ==> Eligible(ix, d, j)
    requires forall j :: Eligible(ix, d, j) && j !in among ==>
               exists i :: i in among && i in ix.chunks && ix.chunks[i].lastAccess <= ix.chunks[j].lastAccess
    ensures exists j :: Oldest(ix, d, j)
    decreases |among|
  {
    if j :| j in among && j != k {
      if ix.chunks[j].lastAccess <= ix.chunks[k].lastAccess {
        OldestOf(ix, d, among - {k}, j);
      } else {
        OldestOf(ix, d, among - {j}, k);
      }
    } else {
      assert among == {k};
      assert Oldest(ix, d, k);
    }
  }

  // Stamps differ, so the victim does not depend on the order in which the map is walked.
  lemma VictimUnique(ix: Index, d: Demand, j: Key, k: Key)
    requires Stamped(ix) && Oldest(ix, d, j) && Oldest(ix, d, k)
    ensures j == k
  {
  }

  /******* Eviction loops *******/

  ghost predicate OnlyEvicted(before: Index, after: Index)
  {
    && after.chunks.Keys <= before.chunks.Keys
    && (forall k | k in after.chunks :: after.chunks[k] == before.chunks[k])
    && (forall k | k in before.chunks && before.chunks[k].pins != 0 :: k in after.chunks)
    && after == before.(chunks := after.chunks, current := after.current)
  }

  ghost predicate CanStep(ix: Index, d: Demand, removals: nat)
  {
    !Fitting(ix, d) && removals > 0 && exists k :: Oldest(ix, d, k)
  }

  lemma {:induction false} EvictUntilTidy(w: World, ix: Index, d: Demand, removals: nat)
    requires ValidWorld(w) && Tidy(w, ix)
    ensures Tidy(w, EvictUntil(ix, d, removals).ix)
    ensures EvictUntil(ix, d, removals).ix.current <= ix.current
    decreases |ix.chunks|
  {
    hide Tidy, Oldest;
    if CanStep(ix, d, removals) {
      EvictTidy(w, ix, Victim(ix, d));
      EvictUntilTidy(w, Evict(ix, Victim(ix, d)), d, removals - 1);
    }
  }

  lemma EvictUntilSound(w: World, ix: Index, d: Demand, removals: nat)
    requires ValidWorld(w) && Sound(w, ix)
    ensures Sound(w, EvictUntil(ix, d, removals).ix)
  {
    hide Tidy, EvictUntil;
    EvictUntilTidy(w, ix, d, removals);
    EvictUntilOnly(ix, d, removals);
  }

  lemma {:induction false} EvictUntilOnly(ix: Index, d: Demand, removals: nat)
    ensures OnlyEvicted(ix, EvictUntil(ix, d, removals).ix)
    ensures d.spared.Some? && d.spared.value in ix.chunks ==> d.spared.value in EvictUntil(ix, d, removals).ix.chunks
    ensures forall k | k in ix.chunks && k !in EvictUntil(ix, d, removals).ix.chunks :: Eligible(ix, d, k)
    decreases |ix.chunks|
  {
    hide Fitting, Oldest;
    if CanStep(ix, d, removals) {
      var v := Victim(ix, d);
      VictimEligible(ix, d, v);
      EvictUntilOnly(Evict(ix, v), d, removals - 1);
      StillEligible(ix, v, d);
    }
  }

  lemma VictimEligible(ix: Index, d: Demand, v: Key)
    requires Oldest(ix, d, v)
    ensures Eligible(ix, d, v)
  {
  }

  lemma StillEligible(ix: Index, v: Key, d: Demand)
    requires v in ix.chunks
    ensures forall k :: Eligible(Evict(ix, v), d, k) ==> Eligible(ix, d, k)
  {
  }

  lemma {:induction false} EvictUntilUsage(ix: Index, d: Demand, removals: nat, o: Object)
    ensures Usage(EvictUntil(ix, d, removals).ix, o) <= Usage(ix, o)
    decreases |ix.chunks|
  {
    hide Usage, Oldest;
    if CanStep(ix, d, removals) {
      EvictUsage(ix, Victim(ix, d), o);
      EvictUntilUsage(Evict(ix, Victim(ix, d)), d, removals - 1, o);
    }
  }

  // One turn of the loop, whichever oldest chunk the scan came upon.
  lemma EvictUntilTurn(ix: Index, d: Demand, removals: nat, v: Key)
    requires Stamped(ix) && !Fitting(ix, d) && Oldest(ix, d, v) && removals > 0
    ensures EvictUntil(ix, d, removals) == EvictUntil(Evict(ix, v), d, removals - 1)
    ensures Stamped(Evict(ix, v))
  {
    VictimUnique(ix, d, v, Victim(ix, d));
  }

  lemma EvictUntilStops(ix: Index, d: Demand, removals: nat)
    ensures Fitting(ix, d) ==> EvictUntil(ix, d, removals) == Evicted(ix, Fits)
    ensures !Fitting(ix, d) && (forall k :: !Eligible(ix, d, k)) ==> EvictUntil(ix, d, removals) == Evicted(ix, NoVictim)
    ensures !Fitting(ix, d) && (exists k :: Oldest(ix, d, k)) ==> EvictUntil(ix, d, 0) == Evicted(ix, RemoveFailed)
  {
  }

  lemma VictimIff(ix: Index, d: Demand)
    ensures (exists k :: Oldest(ix, d, k)) <==> exists k :: Eligible(ix, d, k)
    ensures (exists k :: Oldest(ix, d, k)) ==> |ix.chunks| > 0
  {
    if k :| Eligible(ix, d, k) { OldestExists(ix, d, k); }
  }

  // The loop's verdict: it reports room exactly when there is room, and gives up only with nothing left to evict.
  lemma {:induction false} EvictUntilVerdict(ix: Index, d: Demand, removals: nat)
    ensures var e := EvictUntil(ix, d, removals);
            && (e.space == Fits <==> Fitting(e.ix, d))
            && (e.space == NoVictim ==> forall k :: !Eligible(e.ix, d, k))
            && (removals >= |ix.chunks| ==> e.space != RemoveFailed)
    decreases |ix.chunks|
  {
    hide Fitting, Oldest, Eligible;
    VictimIff(ix, d);
    if CanStep(ix, d, removals) {
      EvictUntilVerdict(Evict(ix, Victim(ix, d)), d, removals - 1);
    }
  }

  // The keys an eviction loop removed.
  ghost function Gone(before: Index, after: Index): set<Key> { before.chunks.Keys - after.chunks.Keys }

  // Putting the evicted chunk k back into the index.
  ghost function Unevict(before: Index, after: Index, k: Key): Index
    requires k in before.chunks
  {
    after.(chunks := after.chunks[k := before.chunks[k]], current := after.current + before.chunks[k].size)
  }

  // Independent statement of the policy: only eligible chunks go, oldest first, and no more than needed.
  ghost predicate LeastRecentEvicted(before: Index, after: Index, d: Demand)
  {
    && (forall k | k in Gone(before, after) :: Eligible(before, d, k))
    && (forall k, j | k in Gone(before, after) && Eligible(before, d, j) && j !in Gone(before, after) ::
          before.chunks[k].lastAccess < before.chunks[j].lastAccess)
    && (forall k | k in Gone(before, after) &&
          (forall j | j in Gone(before, after) :: before.chunks[j].lastAccess <= before.chunks[k].lastAccess) ::
          !Fitting(Unevict(before, after, k), d))
  }

  lemma NothingGone(ix: Index, d: Demand)
    ensures LeastRecentEvicted(ix, ix, d)
  {
  }

  lemma {:induction false} EvictionPolicy(w: World, ix: Index, d: Demand, removals: nat)
    requires ValidWorld(w) && Tidy(w, ix)
    ensures LeastRecentEvicted(ix, EvictUntil(ix, d, removals).ix, d)
    decreases |ix.chunks|
  {
    hide Accounted, Stamped, Faithful, LeastRecentEvicted, OnlyEvicted, Oldest;
    if CanStep(ix, d, removals) {
      var v := Victim(ix, d);
      var next := Evict(ix, v);
      EvictTidy(w, ix, v);
      EvictionPolicy(w, next, d, removals - 1);
      EvictUntilOnly(next, d, removals - 1);
      EvictUntilTidy(w, next, d, removals - 1);
      PolicyStep(ix, v, EvictUntil(next, d, removals - 1).ix, d);
    } else {
      NothingGone(ix, d);
    }
  }

  // One more, older, victim in front of a run of evictions.
  lemma PolicyStep(ix: Index, v: Key, after: Index, d: Demand)
    requires Accounted(ix) && Stamped(ix) && Accounted(after)
    requires Oldest(ix, d, v) && !Fitting(ix, d)
    requires OnlyEvicted(Evict(ix, v), after)
    requires LeastRecentEvicted(Evict(ix, v), after, d)
    ensures LeastRecentEvicted(ix, after, d)
  {
    hide Accounted, Stamped, Usage, Fitting;
    var next := Evict(ix, v);
    assert Gone(ix, after) == Gone(next, after) + {v};
    PolicyOrder(ix, v, after, d);
    forall k | k in Gone(ix, after) &&
        (forall j | j in Gone(ix, after) :: ix.chunks[j].lastAccess <= ix.chunks[k].lastAccess)
      ensures !Fitting(Unevict(ix, after, k), d)
    {
      if k == v {
        NothingElseGone(ix, v, after, d);
      } else {
        assert k in Gone(next, after);
        assert Unevict(ix, after, k) == Unevict(next, after, k);
      }
    }
  }

  lemma PolicyOrder(ix: Index, v: Key, after: Index, d: Demand)
    requires Stamped(ix) && Oldest(ix, d, v)
    requires OnlyEvicted(Evict(ix, v), after)
    requires LeastRecentEvicted(Evict(ix, v), after, d)
    ensures forall k | k in Gone(ix, after) :: Eligible(ix, d, k)
    ensures forall k, j | k in Gone(ix, after) && Eligible(ix, d, j) && j !in Gone(ix, after) ::
              ix.chunks[k].lastAccess < ix.chunks[j].lastAccess
  {
    var next := Evict(ix, v);
    forall k | k in Gone(ix, after) ensures Eligible(ix, d, k) {
      if k != v { assert k in Gone(next, after); }
    }
    forall k, j | k in Gone(ix, after) && Eligible(ix, d, j) && j !in Gone(ix, after)
      ensures ix.chunks[k].lastAccess < ix.chunks[j].lastAccess
    {
      assert j in next.chunks && Eligible(next, d, j);
      if k != v { assert k in Gone(next, after) && j !in Gone(next, after); }
    }
  }

  // If the first victim is also the newest one, it was the only one.
  lemma NothingElseGone(ix: Index, v: Key, after: Index, d: Demand)
    requires Accounted(ix) && Stamped(ix) && Accounted(after)
    requires Oldest(ix, d, v)
    requires OnlyEvicted(Evict(ix, v), after)
    requires LeastRecentEvicted(Evict(ix, v), after, d)
    requires forall j | j in Gone(ix, after) :: ix.chunks[j].lastAccess <= ix.chunks[v].lastAccess
    ensures Unevict(ix, after, v) == ix
  {
    hide LeastRecentEvicted, Stamped;
    var next := Evict(ix, v);
    SameChunks(ix, v, after, d);
    EvictAccounted(ix, v);
    assert ix.chunks == next.chunks[v := ix.chunks[v]];
  }

  lemma SameChunks(ix: Index, v: Key, after: Index, d: Demand)
    requires Stamped(ix) && Oldest(ix, d, v)
    requires OnlyEvicted(Evict(ix, v), after)
    requires LeastRecentEvicted(Evict(ix, v), after, d)
    requires forall j | j in Gone(ix, after) :: ix.chunks[j].lastAccess <= ix.chunks[v].lastAccess
    ensures after.chunks == Evict(ix, v).chunks
  {
    var next := Evict(ix, v);
    forall j | j in next.chunks ensures j in after.chunks {
      if j !in after.chunks {
        assert j in Gone(next, after);
        assert j in Gone(ix, after) && Eligible(ix, d, j);
      }
    }
  }

  /******* Reservations *******/

  lemma ReserveUsage(ix: Index, k: Key, fetch: Fetch, o: Object)
    requires k !in ix.inflight
    ensures Usage(Reserve(ix, k, fetch), o) == Usage(ix, o) + (if k.obj == o then fetch.expected else 0)
  {
    assert Expected(ix.inflight[k := fetch]) == Expected(ix.inflight)[k := fetch.expected];
    PartPut(Expected(ix.inflight), k, fetch.expected, o);
  }

  lemma ReserveSound(w: World, ix: Index, k: Key, fetch: Fetch)
    requires ValidWorld(w) && Sound(w, ix)
    requires k !in ix.chunks && k !in ix.inflight && IsChunk(w, k) && fetch.expected == ChunkSize(w, k)
    requires w.rolling ==> ix.current + ix.reserved + fetch.expected <= w.maxBytes
    ensures Sound(w, Reserve(ix, k, fetch))
  {
    assert Expected(ix.inflight[k := fetch]) == Expected(ix.inflight)[k := fetch.expected];
    SumPut(Expected(ix.inflight), k, fetch.expected);
  }

  // What a reservation may do to the index, whatever its outcome.
  ghost predicate ReservationOk(w: World, ix: Index, k: Key, fetch: Fetch, r: Reservation)
    requires ValidWorld(w)
  {
    && Sound(w, r.ix)
    && (r.grant != Granted ==> OnlyEvicted(ix, r.ix))
    && (r.grant == Granted ==>
          exists room: Index :: OnlyEvicted(ix, room) && r.ix == Reserve(room, k, fetch))
  }

  lemma OnlyEvictedTrans(a: Index, b: Index, c: Index)
    requires OnlyEvicted(a, b) && OnlyEvicted(b, c)
    ensures OnlyEvicted(a, c)
  {
  }

  // The two eviction loops of a reservation, run one after the other.
  lemma TwoLoops(w: World, ix: Index, d1: Demand, n1: nat, d2: Demand, n2: nat)
    requires ValidWorld(w) && Sound(w, ix)
    ensures var first := EvictUntil(ix, d1, n1).ix;
            var second := EvictUntil(first, d2, n2).ix;
            Sound(w, first) && Sound(w, second) && OnlyEvicted(ix, first) && OnlyEvicted(ix, second)
  {
    hide Tidy, WithinQuota, OnlyEvicted, EvictUntil;
    var first := EvictUntil(ix, d1, n1).ix;
    EvictUntilSound(w, ix, d1, n1);
    EvictUntilOnly(ix, d1, n1);
    EvictUntilSound(w, first, d2, n2);
    EvictUntilOnly(first, d2, n2);
    OnlyEvictedTrans(ix, first, EvictUntil(first, d2, n2).ix);
  }

  lemma NothingEvicted(ix: Index)
    ensures OnlyEvicted(ix, ix)
  {
  }

  lemma AbsentStays(ix: Index, after: Index, k: Key)
    requires OnlyEvicted(ix, after) && k !in ix.chunks && k !in ix.inflight
    ensures k !in after.chunks && k !in after.inflight
  {
  }

  lemma TryReserveOk(w: World, ix: Index, k: Key, call: nat, disk: Disk)
    requires ValidWorld(w) && Sound(w, ix) && IsChunk(w, k) && k !in ix.chunks && k !in ix.inflight
    ensures ReservationOk(w, ix, k, Fetch(ChunkSize(w, k), Foreground, call), TryReserve(w, ix, k, call, disk))
  {
    hide Tidy, WithinQuota, EvictUntil, OnlyEvicted;
    NothingEvicted(ix);
    var fetch := Fetch(ChunkSize(w, k), Foreground, call);
    if w.rolling {
      var d1, d2 := KeepIncomplete(w, k.obj, fetch.expected, None), ForQuota(w.maxBytes, fetch.expected, None);
      TwoLoops(w, ix, d1, disk.forObject, d2, disk.forQuota);
      var room := EvictUntil(EvictUntil(ix, d1, disk.forObject).ix, d2, disk.forQuota);
      EvictUntilVerdict(EvictUntil(ix, d1, disk.forObject).ix, d2, disk.forQuota);
      AbsentStays(ix, room.ix, k);
      if room.space == Fits { ReserveSound(w, room.ix, k, fetch); }
    } else {
      ReserveSound(w, ix, k, fetch);
    }
  }

  lemma TryReserveBackgroundOk(w: World, ix: Index, k: Key, kind: Kind, spared: Option<Key>, call: nat, disk: Disk)
    requires ValidWorld(w) && Sound(w, ix) && IsChunk(w, k) && k !in ix.chunks && k !in ix.inflight
    ensures ReservationOk(w, ix, k, Fetch(ChunkSize(w, k), kind, call),
              TryReserveBackground(w, ix, k, kind, spared, call, disk))
  {
    hide Tidy, WithinQuota, EvictUntil, OnlyEvicted;
    NothingEvicted(ix);
    var fetch := Fetch(ChunkSize(w, k), kind, call);
    if w.rolling {
      var d1 := KeepIncomplete(w, k.obj, fetch.expected, spared);
      var d2 := ForQuota(w.maxBytes - w.chunkBytes, fetch.expected, spared);
      TwoLoops(w, ix, d1, disk.forObject, d2, disk.forQuota);
      var room := EvictUntil(EvictUntil(ix, d1, disk.forObject).ix, d2, disk.forQuota);
      EvictUntilVerdict(EvictUntil(ix, d1, disk.forObject).ix, d2, disk.forQuota);
      AbsentStays(ix, room.ix, k);
      if room.space == Fits { ReserveSound(w, room.ix, k, fetch); }
    } else {
      ReserveSound(w, ix, k, fetch);
    }
  }

  // After a grant the object stays short of complete; nobody else's usage grows.
  lemma TryReserveUsage(w: World, ix: Index, k: Key, call: nat, disk: Disk, o: Object)
    requires ValidWorld(w) && w.rolling && IsChunk(w, k) && k !in ix.inflight
    ensures var r := TryReserve(w, ix, k, call, disk);
            && (r.grant == Granted && o == k.obj ==> Usage(r.ix, o) <= Size(w, o) - 1)
            && (r.grant != Granted || o != k.obj ==> Usage(r.ix, o) <= Usage(ix, o))
  {
    hide Usage, EvictUntil;
    var fetch := Fetch(ChunkSize(w, k), Foreground, call);
    var d1, d2 := KeepIncomplete(w, k.obj, fetch.expected, None), ForQuota(w.maxBytes, fetch.expected, None);
    RoomUsage(w, ix, k, d1, disk.forObject, d2, disk.forQuota, o);
    ReserveUsage(EvictUntil(EvictUntil(ix, d1, disk.forObject).ix, d2, disk.forQuota).ix, k, fetch, o);
  }

  lemma TryReserveBackgroundUsage(w: World, ix: Index, k: Key, kind: Kind, spared: Option<Key>, call: nat, disk: Disk, o: Object)
    requires ValidWorld(w) && w.rolling && IsChunk(w, k) && k !in ix.inflight
    ensures var r := TryReserveBackground(w, ix, k, kind, spared, call, disk);
            && (r.grant == Granted && o == k.obj ==> Usage(r.ix, o) <= Size(w, o) - 1)
            && (r.grant != Granted || o != k.obj ==> Usage(r.ix, o) <= Usage(ix, o))
  {
    hide Usage, EvictUntil;
    var fetch := Fetch(ChunkSize(w, k), kind, call);
    var d1 := KeepIncomplete(w, k.obj, fetch.expected, spared);
    var d2 := ForQuota(w.maxBytes - w.chunkBytes, fetch.expected, spared);
    RoomUsage(w, ix, k, d1, disk.forObject, d2, disk.forQuota, o);
    ReserveUsage(EvictUntil(EvictUntil(ix, d1, disk.forObject).ix, d2, disk.forQuota).ix, k, fetch, o);
  }

  lemma RoomUsage(w: World, ix: Index, k: Key, d1: Demand, n1: nat, d2: Demand, n2: nat, o: Object)
    requires d1.ForObject? && d1.obj == k.obj
    ensures var first := EvictUntil(ix, d1, n1);
            var second := EvictUntil(first.ix, d2, n2);
            && Usage(first.ix, o) <= Usage(ix, o)
            && Usage(second.ix, o) <= Usage(ix, o)
            && second.ix.inflight == ix.inflight
            && (first.space == Fits && o == k.obj ==> Usage(second.ix, o) + d1.expected <= d1.limit)
  {
    hide Usage, EvictUntil;
    var first := EvictUntil(ix, d1, n1);
    EvictUntilUsage(ix, d1, n1, o);
    EvictUntilVerdict(ix, d1, n1);
    EvictUntilUsage(first.ix, d2, n2, o);
    EvictUntilOnly(ix, d1, n1);
    EvictUntilOnly(first.ix, d2, n2);
  }

  /******* Background fetches *******/

  // A granted background fetch leaves a whole chunk of room for a foreground read.
  lemma BackgroundHeadroom(w: World, ix: Index, k: Key, kind: Kind, spared: Option<Key>, call: nat, disk: Disk)
    requires ValidWorld(w) && w.rolling && IsChunk(w, k)
    ensures var r := TryReserveBackground(w, ix, k, kind, spared, call, disk);
            r.grant == Granted ==> r.ix.current + r.ix.reserved + w.chunkBytes <= w.maxBytes
  {
    hide EvictUntil, Usage;
    var d1 := KeepIncomplete(w, k.obj, ChunkSize(w, k), spared);
    var d2 := ForQuota(w.maxBytes - w.chunkBytes, ChunkSize(w, k), spared);
    EvictUntilVerdict(EvictUntil(ix, d1, disk.forObject).ix, d2, disk.forQuota);
  }

  // A background fetch never evicts the chunk it was told to spare, and a
  // next-episode prefetch never evicts a chunk of another object.
  lemma BackgroundSpares(w: World, ix: Index, k: Key, kind: Kind, spared: Option<Key>, call: nat, disk: Disk, j: Key)
    requires ValidWorld(w) && w.rolling && IsChunk(w, k) && j in ix.chunks
    requires j !in TryReserveBackground(w, ix, k, kind, spared, call, disk).ix.chunks
    ensures ix.chunks[j].pins == 0 && spared != Some(j) && (kind == NextEpisode ==> j.obj == k.obj)
  {
    hide EvictUntil, Fitting;
    var d1 := KeepIncomplete(w, k.obj, ChunkSize(w, k), spared);
    var d2 := ForQuota(w.maxBytes - w.chunkBytes, ChunkSize(w, k), spared);
    var first := EvictUntil(ix, d1, disk.forObject);
    EvictUntilOnly(ix, d1, disk.forObject);
    EvictUntilOnly(first.ix, d2, disk.forQuota);
    EvictUntilStops(first.ix, d2, disk.forQuota);
    if j !in first.ix.chunks {
      assert Eligible(ix, d1, j);
    } else {
      assert Eligible(first.ix, d2, j);
    }
  }

  /******* When a reservation blocks *******/

  ghost predicate Busy(ix: Index)
  {
    ix.inflight != map[] || exists k :: k in ix.chunks && ix.chunks[k].pins > 0
  }

  lemma UsageNeedsEntry(ix: Index, o: Object)
    requires Usage(ix, o) > 0
    ensures ix.inflight != map[] || exists k :: k in ix.chunks && k.obj == o
  {
    if ix.inflight == map[] {
      assert Of(Expected(ix.inflight), o) == map[];
      var m := Of(Sizes(ix.chunks), o);
      assert m != map[];
      var k :| k in m;
    }
  }

  lemma BytesNeedEntry(ix: Index)
    requires Accounted(ix) && ix.current + ix.reserved > 0
    ensures ix.inflight != map[] || ix.chunks != map[]
  {
    assert ix.inflight == map[] ==> Expected(ix.inflight) == map[];
    assert ix.chunks == map[] ==> Sizes(ix.chunks) == map[];
  }

  // An eviction loop that gives up on a demand it could meet from empty was stopped by a pin or a fetch.
  lemma GaveUpBusy(w: World, ix: Index, d: Demand, n: nat)
    requires ValidWorld(w) && Sound(w, ix) && d.spared == None && d.expected <= d.limit
    requires EvictUntil(ix, d, n).space == NoVictim
    ensures Busy(EvictUntil(ix, d, n).ix)
  {
    hide EvictUntil, Stamped, Faithful, WithinQuota;
    var after := EvictUntil(ix, d, n).ix;
    EvictUntilVerdict(ix, d, n);
    EvictUntilSound(w, ix, d, n);
    match d
    case ForObject(o, _, _, _) =>
      UsageNeedsEntry(after, o);
      if after.inflight == map[] {
        var k :| k in after.chunks && k.obj == o;
        assert !Eligible(after, d, k);
      }
    case ForQuota(_, _, _) =>
      BytesNeedEntry(after);
      if after.inflight == map[] {
        var k :| k in after.chunks;
        assert !Eligible(after, d, k);
      }
  }

  // A blocked foreground read is always waiting for a pin to go or a fetch to end.
  lemma BlockedMeansBusy(w: World, ix: Index, k: Key, call: nat, disk: Disk)
    requires ValidWorld(w) && Sound(w, ix) && IsChunk(w, k) && Size(w, k.obj) > w.chunkBytes
    requires TryReserve(w, ix, k, call, disk).grant == Blocked
    ensures Busy(TryReserve(w, ix, k, call, disk).ix)
  {
    hide EvictUntil, Stamped, Faithful, WithinQuota, Busy;
    var d1, d2 := KeepIncomplete(w, k.obj, ChunkSize(w, k), None), ForQuota(w.maxBytes, ChunkSize(w, k), None);
    var first := EvictUntil(ix, d1, disk.forObject);
    if first.space == NoVictim {
      GaveUpBusy(w, ix, d1, disk.forObject);
    } else {
      EvictUntilSound(w, ix, d1, disk.forObject);
      GaveUpBusy(w, first.ix, d2, disk.forQuota);
    }
  }

  lemma IdleStays(ix: Index, d: Demand, n: nat)
    requires !Busy(ix)
    ensures !Busy(EvictUntil(ix, d, n).ix)
  {
    EvictUntilOnly(ix, d, n);
  }

  // With no pin, no fetch and a file system that deletes, a reservation is granted.
  lemma IdleMeansGranted(w: World, ix: Index, k: Key, call: nat, disk: Disk)
    requires ValidWorld(w) && Sound(w, ix) && IsChunk(w, k) && Size(w, k.obj) > w.chunkBytes && !Busy(ix)
    requires disk.forObject >= |ix.chunks| && disk.forQuota >= |ix.chunks|
    ensures TryReserve(w, ix, k, call, disk).grant == Granted
  {
    hide EvictUntil, Accounted, Stamped, Faithful, WithinQuota, Busy, Usage;
    if !w.rolling { return; }
    var d1, d2 := KeepIncomplete(w, k.obj, ChunkSize(w, k), None), ForQuota(w.maxBytes, ChunkSize(w, k), None);
    var first := EvictUntil(ix, d1, disk.forObject);
    EvictUntilVerdict(ix, d1, disk.forObject);
    IdleStays(ix, d1, disk.forObject);
    if first.space == NoVictim { GaveUpBusy(w, ix, d1, disk.forObject); }
    EvictUntilSound(w, ix, d1, disk.forObject);
    FewerChunks(ix, d1, disk.forObject);
    EvictUntilVerdict(first.ix, d2, disk.forQuota);
    IdleStays(first.ix, d2, disk.forQuota);
    if EvictUntil(first.ix, d2, disk.forQuota).space == NoVictim { GaveUpBusy(w, first.ix, d2, disk.forQuota); }
  }

  lemma FewerChunks(ix: Index, d: Demand, n: nat)
    ensures |EvictUntil(ix, d, n).ix.chunks| <= |ix.chunks|
  {
    EvictUntilOnly(ix, d, n);
    SubsetSize(EvictUntil(ix, d, n).ix.chunks.Keys, ix.chunks.Keys);
  }

  lemma {:induction false} SubsetSize<T>(a: set<T>, b: set<T>)
    requires a <= b
    ensures |a| <= |b|
  {
    if a != {} {
      var x :| x in a;
      SubsetSize(a - {x}, b - {x});
    }
  }

  /******* Pins and fetch completion *******/

  lemma PinSizes(ix: Index, k: Key)
    requires k in ix.chunks
    ensures Sizes(Pin(ix, k).chunks) == Sizes(ix.chunks)
    ensures ix.chunks[k].pins > 0 ==> Sizes(Unpin(ix, k).chunks) == Sizes(ix.chunks)
  {
  }

  // Pinning and unpinning move no bytes.
  lemma PinUsage(ix: Index, k: Key, o: Object)
    requires k in ix.chunks
    ensures Usage(Pin(ix, k), o) == Usage(ix, o)
    ensures ix.chunks[k].pins > 0 ==> Usage(Unpin(ix, k), o) == Usage(ix, o)
  {
    PinSizes(ix, k);
  }

  lemma PinSound(w: World, ix: Index, k: Key)
    requires ValidWorld(w) && Sound(w, ix) && k in ix.chunks
    ensures Sound(w, Pin(ix, k))
  {
    PinSizes(ix, k);
  }

  lemma UnpinSound(w: World, ix: Index, k: Key)
    requires ValidWorld(w) && Sound(w, ix) && k in ix.chunks && ix.chunks[k].pins > 0
    ensures Sound(w, Unpin(ix, k))
  {
    PinSizes(ix, k);
  }

  lemma EndFetchAccounted(ix: Index, k: Key, stored: Option<seq<Byte>>)
    requires Accounted(ix) && k in ix.inflight
    ensures Accounted(EndFetch(ix, k, stored))
  {
    var after := EndFetch(ix, k, stored);
    assert Expected(after.inflight) == Expected(ix.inflight) - {k};
    SumRemove(Expected(ix.inflight), k);
    if stored.Some? {
      assert Sizes(after.chunks) == Sizes(ix.chunks)[k := ix.inflight[k].expected];
      SumPut(Sizes(ix.chunks), k, ix.inflight[k].expected);
    }
  }

  // A finished fetch turns reserved bytes into cached bytes, or frees them.
  lemma EndFetchSound(w: World, ix: Index, k: Key, stored: Option<seq<Byte>>)
    requires ValidWorld(w) && Sound(w, ix) && k in ix.inflight
    requires stored.Some? ==> stored.value == Slice(w, k)
    ensures Sound(w, EndFetch(ix, k, stored))
  {
    hide Accounted;
    EndFetchAccounted(ix, k, stored);
  }

  lemma EndFetchUsage(ix: Index, k: Key, stored: Option<seq<Byte>>, o: Object)
    requires Accounted(ix) && k in ix.inflight
    ensures Usage(EndFetch(ix, k, stored), o) ==
            Usage(ix, o) - (if stored.None? && k.obj == o then ix.inflight[k].expected else 0)
  {
    var after := EndFetch(ix, k, stored);
    assert Expected(after.inflight) == Expected(ix.inflight) - {k};
    PartRemove(Expected(ix.inflight), k, o);
    if stored.Some? {
      assert Sizes(after.chunks) == Sizes(ix.chunks)[k := ix.inflight[k].expected];
      PartPut(Sizes(ix.chunks), k, ix.inflight[k].expected, o);
    }
  }
}

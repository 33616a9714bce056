/** Every step keeps the cache invariant, so every reachable state has it. */
module CacheSafety {
  import opened Options
  import opened Bytes
  import opened CacheModel
  import opened CacheIndexProofs
  import opened CacheRecovery
  import opened CacheRuns

  /******* Pins *******/

  lemma HoldersPut(readers: map<nat, Reader>, id: nat, r: Reader, k: Key)
    ensures Holders(readers[id := r], k) ==
            (if Holds(r, k) then Holders(readers, k) + {id} else Holders(readers, k) - {id})
  {
  }

  // A held chunk is pinned.
  lemma HeldIsPinned(s: System, id: nat, k: Key)
    requires PinsOk(s) && id in s.readers && Holds(s.readers[id], k)
    ensures k in s.ix.chunks && s.ix.chunks[k].pins > 0
  {
    assert id in Holders(s.readers, k);
  }

  // A pinned chunk is held.
  lemma PinnedIsHeld(s: System, k: Key) returns (id: nat)
    requires PinsOk(s) && k in s.ix.chunks && s.ix.chunks[k].pins > 0
    ensures id in s.readers && Holds(s.readers[id], k)
  {
    assert Holders(s.readers, k) != {};
    id :| id in Holders(s.readers, k);
  }

  predicate HoldsNothing(r: Reader) { !r.phase.Holding? && !r.phase.Copied? }

  // A reader that holds nothing before and after leaves the pins alone.
  lemma PinsPut(s: System, id: nat, r: Reader)
    requires PinsOk(s) && (id in s.readers ==> HoldsNothing(s.readers[id])) && HoldsNothing(r)
    ensures PinsOk(Put(s, id, r))
  {
    forall k | k in s.ix.chunks ensures s.ix.chunks[k].pins == |Holders(s.readers[id := r], k)| {
      HoldersPut(s.readers, id, r, k);
      assert Holders(s.readers, k) - {id} == Holders(s.readers, k);
    }
  }

  // A reader may move on while it keeps hold of the same chunk.
  lemma PinsKeep(s: System, id: nat, r: Reader, k: Key)
    requires PinsOk(s) && id in s.readers && Holds(s.readers[id], k) && Holds(r, k)
    ensures PinsOk(Put(s, id, r))
  {
    forall j | j in s.ix.chunks ensures s.ix.chunks[j].pins == |Holders(s.readers[id := r], j)| {
      HoldersPut(s.readers, id, r, j);
      assert Holders(s.readers[id := r], j) == Holders(s.readers, j);
    }
  }

  lemma PinsEvicted(s: System, ix: Index)
    requires PinsOk(s) && OnlyEvicted(s.ix, ix)
    ensures PinsOk(s.(ix := ix))
  {
    forall id | id in s.readers && (s.readers[id].phase.Holding? || s.readers[id].phase.Copied?)
      ensures s.readers[id].phase.key in ix.chunks
    {
      HeldIsPinned(s, id, s.readers[id].phase.key);
    }
  }

  lemma PinsHit(s: System, id: nat, k: Key, r: Reader)
    requires PinsOk(s) && id in s.readers && HoldsNothing(s.readers[id]) && k in s.ix.chunks && Holds(r, k)
    ensures PinsOk(Put(s.(ix := Pin(s.ix, k)), id, r))
  {
    var s' := Put(s.(ix := Pin(s.ix, k)), id, r);
    forall j | j in s'.ix.chunks ensures s'.ix.chunks[j].pins == |Holders(s'.readers, j)| {
      HoldersPut(s.readers, id, r, j);
      assert id !in Holders(s.readers, j);
      if j != k { assert Holders(s.readers, j) - {id} == Holders(s.readers, j); }
    }
  }

  lemma PinsReleased(s: System, id: nat, k: Key, r: Reader)
    requires PinsOk(s) && id in s.readers && Holds(s.readers[id], k) && HoldsNothing(r)
    requires k in s.ix.chunks && s.ix.chunks[k].pins > 0
    ensures PinsOk(Put(s.(ix := Unpin(s.ix, k)), id, r))
  {
    var s' := Put(s.(ix := Unpin(s.ix, k)), id, r);
    forall j | j in s'.ix.chunks ensures s'.ix.chunks[j].pins == |Holders(s'.readers, j)| {
      HoldersPut(s.readers, id, r, j);
      if j == k {
        assert id in Holders(s.readers, j);
      } else {
        assert Holders(s.readers, j) - {id} == Holders(s.readers, j);
      }
    }
  }

  lemma PinsFetched(s: System, k: Key, stored: Option<seq<Byte>>)
    requires PinsOk(s) && k in s.ix.inflight && k !in s.ix.chunks
    ensures PinsOk(s.(ix := EndFetch(s.ix, k, stored)))
  {
    assert forall id | id in s.readers :: !Holds(s.readers[id], k);
    assert Holders(s.readers, k) == {};
  }

  /******* Busy *******/

  lemma BusyEvicted(ix: Index, ix': Index)
    requires OnlyEvicted(ix, ix') && Busy(ix)
    ensures Busy(ix')
  {
  }

  // A reservation leaves a busy index busy.
  lemma BusyReserved(w: World, ix: Index, k: Key, fetch: Fetch, r: Reservation)
    requires ValidWorld(w) && ReservationOk(w, ix, k, fetch, r)
    ensures Busy(ix) || r.grant == Granted ==> Busy(r.ix)
  {
    hide Tidy, WithinQuota;
    if r.grant == Granted {
      var room: Index :| OnlyEvicted(ix, room) && r.ix == Reserve(room, k, fetch);
      assert k in r.ix.inflight;
    }
  }

  lemma BusyPinned(ix: Index, k: Key)
    requires k in ix.chunks
    ensures Busy(Pin(ix, k))
  {
    assert Pin(ix, k).chunks[k].pins > 0;
  }

  lemma WaitersEvicted(s: System, ix: Index)
    requires WaitersOk(s) && (Busy(s.ix) ==> Busy(ix))
    ensures WaitersOk(s.(ix := ix))
  {
  }

  /******* Calls *******/

  lemma CallsEvicted(s: System, ix: Index)
    requires CallsOk(s) && ix.inflight == s.ix.inflight
    ensures CallsOk(s.(ix := ix))
  {
  }

  lemma CallsPut(s: System, id: nat, r: Reader)
    requires CallsOk(s) && (r.phase.AwaitCall? ==> r.phase.call < |s.calls|)
    ensures CallsOk(Put(s, id, r))
  {
  }

  lemma CallsStarted(s: System, room: Index, k: Key, fetch: Fetch)
    requires CallsOk(s) && room.inflight == s.ix.inflight && k !in s.ix.inflight && fetch.call == |s.calls|
    ensures CallsOk(s.(ix := Reserve(room, k, fetch), calls := s.calls + [Call(k, fetch.kind, None)]))
  {
  }

  lemma CallsFinished(w: World, s: System, k: Key, stored: bool, err: FetchError)
    requires ValidWorld(w) && CallsOk(s) && k in s.ix.inflight && IsChunk(w, k)
    ensures CallsOk(FinishStep(w, s, k, stored, err))
  {
  }

  /******* Reader arithmetic *******/

  lemma Split(x: nat, c: int)
    requires c > 0
    ensures x == (x / c) * c + x % c && 0 <= x % c < c && x / c >= 0
  {
  }

  // While bytes are missing, the next chunk exists and at least one byte of it is copied.
  lemma NextChunk(w: World, r: Reader)
    requires ValidWorld(w) && Prefix(w, r) && Cached(w, r) && Unfinished(w, r)
    ensures IsChunk(w, KeyOf(w, r))
    ensures KeyOf(w, r).index * w.chunkBytes + Within(w, r) == r.offset + |r.got|
    ensures 0 <= Within(w, r) < ChunkSize(w, KeyOf(w, r))
    ensures 0 < CopyLength(w, r) <= ChunkSize(w, KeyOf(w, r)) - Within(w, r)
    ensures |r.got| + CopyLength(w, r) <= Wanted(w, r)
  {
    Split(r.offset + |r.got|, w.chunkBytes);
  }

  // Copying from the right place of the right chunk extends the prefix.
  lemma CopyExtends(w: World, r: Reader, count: nat, phase: Phase)
    requires ValidWorld(w) && Prefix(w, r) && Cached(w, r) && Unfinished(w, r)
    requires count <= CopyLength(w, r) && IsChunk(w, KeyOf(w, r))
    requires Within(w, r) + count <= |Slice(w, KeyOf(w, r))|
    ensures var r' := r.(got := r.got + Slice(w, KeyOf(w, r))[Within(w, r)..Within(w, r) + count], phase := phase);
            Prefix(w, r') && Cached(w, r') && |r'.got| == |r.got| + count
  {
    NextChunk(w, r);
    var k, from, at := KeyOf(w, r), Within(w, r), r.offset + |r.got|;
    ChunkInRange(w, k);
    SliceOfSlice(w.remote(r.obj), k.index * w.chunkBytes, k.index * w.chunkBytes + ChunkSize(w, k), from, from + count);
    assert w.remote(r.obj)[r.offset..at] + w.remote(r.obj)[at..at + count] == w.remote(r.obj)[r.offset..at + count];
  }

  lemma SliceOfSlice<T>(s: seq<T>, lo: nat, hi: nat, a: nat, b: nat)
    requires lo <= hi <= |s| && a <= b <= hi - lo
    ensures s[lo..hi][a..b] == s[lo + a..lo + b]
  {
    forall i | 0 <= i < b - a ensures s[lo..hi][a..b][i] == s[lo + a..lo + b][i] {
      assert s[lo..hi][a..b][i] == s[lo..hi][a + i];
    }
  }

  lemma BeginOk(w: World, o: Object, offset: int, length: nat)
    requires ValidWorld(w)
    ensures ReaderOk(w, Begin(w, o, offset, length)) && HoldsNothing(Begin(w, o, offset, length))
    ensures var p := Begin(w, o, offset, length).phase; !p.AwaitCall? && !p.AwaitSpace?
  {
  }

  lemma ReaderOf(w: World, s: System, id: nat)
    requires ValidWorld(w) && Inv(w, s) && id in s.readers
    ensures ReaderOk(w, s.readers[id])
  {
    hide Sound, PinsOk, CallsOk, WaitersOk, NeverComplete, ReaderOk;
  }

  lemma ChunkBytes(w: World, s: System, k: Key)
    requires ValidWorld(w) && Inv(w, s) && k in s.ix.chunks
    ensures IsChunk(w, k) && s.ix.chunks[k].bytes == Slice(w, k)
  {
    hide PinsOk, CallsOk, WaitersOk, NeverComplete, ReadersOk, Accounted, Stamped, Slice;
  }

  /******* Steps that only move one reader *******/

  ghost predicate Moves(w: World, s: System, id: nat, r: Reader)
    requires ValidWorld(w)
  {
    && ReaderOk(w, r) && HoldsNothing(r) && (id in s.readers ==> HoldsNothing(s.readers[id]))
    && !r.phase.AwaitCall? && !r.phase.AwaitSpace?
  }

  lemma MoveKeeps(w: World, s: System, id: nat, r: Reader)
    requires ValidWorld(w) && Inv(w, s) && Moves(w, s, id, r)
    ensures Inv(w, Put(s, id, r))
  {
    hide Sound, Usage, Busy, ReaderOk, PinsOk, CallsOk;
    PinsPut(s, id, r);
    CallsPut(s, id, r);
  }

  lemma StartKeeps(w: World, s: System, id: nat, o: Object, offset: int, length: nat)
    requires ValidWorld(w) && Inv(w, s) && Enabled(w, s, StartRead(id, o, offset, length))
    ensures Inv(w, Step(w, s, StartRead(id, o, offset, length)))
  {
    hide Inv, ReaderOk, Begin;
    BeginOk(w, o, offset, length);
    MoveKeeps(w, s, id, Begin(w, o, offset, length));
  }

  lemma DirectKeeps(w: World, s: System, id: nat, count: nat, outcome: Outcome)
    requires ValidWorld(w) && Inv(w, s) && Enabled(w, s, DirectRead(id, count, outcome))
    ensures Inv(w, Step(w, s, DirectRead(id, count, outcome)))
  {
    hide Inv, Sound;
    ReaderOf(w, s, id);
    MoveKeeps(w, s, id, DirectResult(w, s.readers[id], count, outcome));
  }

  lemma ResumeKeeps(w: World, s: System, id: nat)
    requires ValidWorld(w) && Inv(w, s) && Enabled(w, s, Resume(id))
    ensures Inv(w, Step(w, s, Resume(id)))
  {
    hide Inv, Sound;
    ReaderOf(w, s, id);
    MoveKeeps(w, s, id, Step(w, s, Resume(id)).readers[id]);
  }

  lemma ReturnKeeps(w: World, s: System, id: nat)
    requires ValidWorld(w) && Inv(w, s) && Enabled(w, s, Return(id))
    ensures Inv(w, Step(w, s, Return(id)))
  {
    hide Inv, Sound;
    ReaderOf(w, s, id);
    MoveKeeps(w, s, id, Step(w, s, Return(id)).readers[id]);
  }

  lemma CancelKeeps(w: World, s: System, id: nat)
    requires ValidWorld(w) && Inv(w, s) && Enabled(w, s, Cancel(id))
    ensures Inv(w, Step(w, s, Cancel(id)))
  {
    hide Inv, Sound;
    ReaderOf(w, s, id);
    MoveKeeps(w, s, id, Step(w, s, Cancel(id)).readers[id]);
  }

  /******* Copy and release *******/

  lemma CopyKeeps(w: World, s: System, id: nat, count: nat, ok: bool)
    requires ValidWorld(w) && Inv(w, s) && Enabled(w, s, Copy(id, count, ok))
    ensures Inv(w, Step(w, s, Copy(id, count, ok)))
  {
    hide Sound, Usage, Busy, PinsOk, CallsOk, KeyOf, Within, CopyLength, Slice, Prefix, Cached, Unfinished;
    var r := s.readers[id];
    var r' := Step(w, s, Copy(id, count, ok)).readers[id];
    ReaderOf(w, s, id);
    ChunkBytes(w, s, r.phase.key);
    CopyExtends(w, r, count, Copied(r.phase.key, ok));
    PinsKeep(s, id, r', r.phase.key);
    CallsPut(s, id, r');
  }

  lemma ReleaseKeeps(w: World, s: System, id: nat)
    requires ValidWorld(w) && Inv(w, s) && Enabled(w, s, Release(id))
    ensures Inv(w, Step(w, s, Release(id)))
  {
    hide Tidy, WithinQuota, Usage, Busy, PinsOk, CallsOk, KeyOf;
    var r := s.readers[id];
    var r' := Step(w, s, Release(id)).readers[id];
    ReaderOf(w, s, id);
    var k := r.phase.key;
    UnpinSound(w, s.ix, k);
    PinsReleased(s, id, k, r');
    forall o ensures Usage(Unpin(s.ix, k), o) == Usage(s.ix, o) { PinUsage(s.ix, k, o); }
    CallsPut(s, id, r');
    CallsEvicted(Put(s, id, r'), Unpin(s.ix, k));
    Signalled(Put(s.(ix := Unpin(s.ix, k)), id, r'));
  }

  // Signalling wakes every waiter and changes nothing else.
  lemma Signalled(s: System)
    ensures PinsOk(s) ==> PinsOk(s.(epoch := s.epoch + 1))
    ensures CallsOk(s) ==> CallsOk(s.(epoch := s.epoch + 1))
  {
  }

  /******* Steps that evict *******/

  // Anything that only evicts, and adds no usage, keeps the invariant.
  lemma EvictedKeeps(w: World, s: System, ix: Index)
    requires ValidWorld(w) && Inv(w, s) && Sound(w, ix) && OnlyEvicted(s.ix, ix)
    requires w.rolling ==> forall o :: Usage(ix, o) <= Usage(s.ix, o)
    ensures Inv(w, s.(ix := ix))
  {
    assert PinsOk(s.(ix := ix)) by { PinsEvicted(s, ix); }
    assert WaitersOk(s.(ix := ix)) by {
      if Busy(s.ix) { BusyEvicted(s.ix, ix); }
      WaitersEvicted(s, ix);
    }
    assert CallsOk(s.(ix := ix)) by { CallsEvicted(s, ix); }
    hide Sound, Usage, ReaderOk, PinsOk, WaitersOk, CallsOk, OnlyEvicted;
  }

  lemma OpenKeeps(w: World, s: System, o: Object, removals: nat)
    requires ValidWorld(w) && Inv(w, s)
    ensures Inv(w, OpenStep(w, s, o, removals))
  {
    hide Sound, Usage, PinsOk, CallsOk, ReaderOk, Busy, EvictUntil;
    if w.rolling {
      var d := KeepIncomplete(w, o, 0, None);
      var e := EvictUntil(s.ix, d, removals);
      EvictUntilSound(w, s.ix, d, removals);
      EvictUntilOnly(s.ix, d, removals);
      EvictUntilVerdict(s.ix, d, removals);
      forall p ensures Usage(e.ix, p) <= Usage(s.ix, p) { EvictUntilUsage(s.ix, d, removals, p); }
      EvictedKeeps(w, s, e.ix);
      Track(w, s.(ix := e.ix), OpenStep(w, s, o, removals).tracked);
    } else {
      Track(w, s, s.tracked + {o});
    }
  }

  lemma Track(w: World, s: System, tracked: set<Object>)
    requires ValidWorld(w) && Inv(w, s)
    requires w.rolling ==> forall o | o in tracked && o !in s.tracked :: Usage(s.ix, o) <= Size(w, o) - 1
    ensures Inv(w, s.(tracked := tracked))
  {
    hide Sound, Usage, ReaderOk, Busy, Holders;
  }

  // A granted reservation and its new call.
  lemma StartedKeeps(w: World, s: System, k: Key, fetch: Fetch, ix: Index)
    requires ValidWorld(w) && Inv(w, s) && k !in s.ix.inflight && fetch.call == |s.calls|
    requires ReservationOk(w, s.ix, k, fetch, Reservation(ix, Granted))
    requires w.rolling ==> forall o :: o != k.obj ==> Usage(ix, o) <= Usage(s.ix, o)
    requires w.rolling ==> Usage(ix, k.obj) <= Size(w, k.obj) - 1
    ensures Inv(w, s.(ix := ix, calls := s.calls + [Call(k, fetch.kind, None)]))
  {
    hide Tidy, WithinQuota, Usage, ReaderOk, Busy, PinsOk, CallsOk, OnlyEvicted;
    var s' := s.(ix := ix, calls := s.calls + [Call(k, fetch.kind, None)]);
    var room: Index :| OnlyEvicted(s.ix, room) && ix == Reserve(room, k, fetch);
    assert PinsOk(s') by { PinsEvicted(s, room); PinsReserve(s.(ix := room), s', k, fetch); }
    assert CallsOk(s') by { SameInflight(s.ix, room); CallsStarted(s, room, k, fetch); }
    assert Busy(ix) by { BusyReserved(w, s.ix, k, fetch, Reservation(ix, Granted)); }
  }

  lemma SameInflight(a: Index, b: Index)
    requires OnlyEvicted(a, b)
    ensures b.inflight == a.inflight
  {
  }

  lemma PinsReserve(s: System, s': System, k: Key, fetch: Fetch)
    requires PinsOk(s) && s'.readers == s.readers && s'.ix == Reserve(s.ix, k, fetch)
    ensures PinsOk(s')
  {
  }

  lemma BackgroundKeeps(w: World, s: System, k: Key, kind: Kind, spared: Option<Key>, disk: Disk)
    requires ValidWorld(w) && Inv(w, s) && Enabled(w, s, Background(k, kind, spared, disk))
    ensures Inv(w, BackgroundStep(w, s, k, kind, spared, disk))
  {
    hide Tidy, WithinQuota, Usage, ReaderOk, Busy, PinsOk, CallsOk, OnlyEvicted, TryReserveBackground, WaitersOk;
    var fetch := Fetch(ChunkSize(w, k), kind, |s.calls|);
    var r := TryReserveBackground(w, s.ix, k, kind, spared, |s.calls|, disk);
    TryReserveBackgroundOk(w, s.ix, k, kind, spared, |s.calls|, disk);
    if w.rolling {
      forall o
        ensures r.grant == Granted && o == k.obj ==> Usage(r.ix, o) <= Size(w, o) - 1
        ensures r.grant != Granted || o != k.obj ==> Usage(r.ix, o) <= Usage(s.ix, o)
      {
        TryReserveBackgroundUsage(w, s.ix, k, kind, spared, |s.calls|, disk, o);
      }
    }
    if r.grant == Granted {
      StartedKeeps(w, s, k, fetch, r.ix);
      Track(w, s.(ix := r.ix, calls := s.calls + [Call(k, kind, None)]), s.tracked + {k.obj});
    } else {
      EvictedKeeps(w, s, r.ix);
    }
  }

  lemma FinishKeeps(w: World, s: System, k: Key, stored: bool, err: FetchError)
    requires ValidWorld(w) && Inv(w, s) && Enabled(w, s, Finish(k, stored, err))
    ensures Inv(w, FinishStep(w, s, k, stored, err))
  {
    hide Tidy, WithinQuota, Usage, ReaderOk, Busy, PinsOk, CallsOk, Slice;
    var bytes := if stored then Some(Slice(w, k)) else None;
    var s' := FinishStep(w, s, k, stored, err);
    EndFetchSound(w, s.ix, k, bytes);
    Apart(w, s.ix, k);
    assert PinsOk(s') by { PinsFetched(s, k, bytes); PinsSame(s.(ix := s'.ix), s'); }
    assert CallsOk(s') by { CallsFinished(w, s, k, stored, err); }
    forall o ensures Usage(s'.ix, o) <= Usage(s.ix, o) { EndFetchUsage(s.ix, k, bytes, o); }
  }

  lemma Apart(w: World, ix: Index, k: Key)
    requires ValidWorld(w) && Sound(w, ix) && k in ix.inflight
    ensures k !in ix.chunks && Accounted(ix)
  {
    hide Sizes, Expected;
  }

  lemma PinsSame(s: System, s': System)
    requires PinsOk(s) && s'.ix == s.ix && s'.readers == s.readers
    ensures PinsOk(s')
  {
  }

  /******* Attempts *******/

  lemma HitKeeps(w: World, s: System, id: nat, k: Key)
    requires ValidWorld(w) && Inv(w, s) && id in s.readers && s.readers[id].phase == Ready
    requires Unfinished(w, s.readers[id]) && k == KeyOf(w, s.readers[id]) && k in s.ix.chunks
    ensures Inv(w, Put(s.(ix := Pin(s.ix, k)), id, s.readers[id].(phase := Holding(k))))
  {
    hide Tidy, WithinQuota, Usage, PinsOk, CallsOk, Busy;
    var r' := s.readers[id].(phase := Holding(k));
    ReaderOf(w, s, id);
    PinSound(w, s.ix, k);
    PinsHit(s, id, k, r');
    forall o ensures Usage(Pin(s.ix, k), o) == Usage(s.ix, o) { PinUsage(s.ix, k, o); }
    CallsPut(s, id, r');
    CallsEvicted(Put(s, id, r'), Pin(s.ix, k));
    BusyPinned(s.ix, k);
  }

  // A reader starts to wait.
  lemma WaitKeeps(w: World, s: System, id: nat, r: Reader)
    requires ValidWorld(w) && Inv(w, s) && id in s.readers && HoldsNothing(s.readers[id])
    requires ReaderOk(w, r) && HoldsNothing(r)
    requires r.phase.AwaitCall? ==> r.phase.call < |s.calls|
    requires r.phase.AwaitSpace? ==> r.phase.epoch == s.epoch && Busy(s.ix)
    ensures Inv(w, Put(s, id, r))
  {
    hide Sound, Usage, Busy, ReaderOk, PinsOk, CallsOk;
    PinsPut(s, id, r);
    CallsPut(s, id, r);
  }

  lemma ReserveKeeps(w: World, s: System, k: Key, disk: Disk)
    requires ValidWorld(w) && Inv(w, s) && IsChunk(w, k) && k !in s.ix.chunks && k !in s.ix.inflight
    ensures var r := TryReserve(w, s.ix, k, |s.calls|, disk);
            Inv(w, if r.grant == Granted then s.(ix := r.ix, calls := s.calls + [Call(k, Foreground, None)]) else s.(ix := r.ix))
  {
    hide Tidy, WithinQuota, Usage, ReaderOk, Busy, PinsOk, CallsOk, OnlyEvicted, TryReserve, WaitersOk;
    var r := TryReserve(w, s.ix, k, |s.calls|, disk);
    TryReserveOk(w, s.ix, k, |s.calls|, disk);
    if w.rolling {
      forall o
        ensures r.grant == Granted && o == k.obj ==> Usage(r.ix, o) <= Size(w, o) - 1
        ensures r.grant != Granted || o != k.obj ==> Usage(r.ix, o) <= Usage(s.ix, o)
      {
        TryReserveUsage(w, s.ix, k, |s.calls|, disk, o);
      }
    }
    if r.grant == Granted {
      StartedKeeps(w, s, k, Fetch(ChunkSize(w, k), Foreground, |s.calls|), r.ix);
    } else {
      EvictedKeeps(w, s, r.ix);
    }
  }

  lemma AttemptKeeps(w: World, s: System, id: nat, disk: Disk)
    requires ValidWorld(w) && Inv(w, s) && Enabled(w, s, Attempt(id, disk))
    ensures Inv(w, AttemptStep(w, s, id, disk))
  {
    hide Sound, PinsOk, CallsOk, WaitersOk, NeverComplete, ReadersOk, KeyOf, TryReserve, Busy;
    var r := s.readers[id];
    var k := KeyOf(w, r);
    ReaderOf(w, s, id);
    if k in s.ix.chunks {
      HitKeeps(w, s, id, k);
    } else if k in s.ix.inflight {
      InflightCall(s, k);
      WaitKeeps(w, s, id, r.(phase := AwaitCall(s.ix.inflight[k].call, false)));
    } else {
      ReserveKeeps(w, s, k, disk);
      var g := TryReserve(w, s.ix, k, |s.calls|, disk);
      match g.grant
      case Granted =>
        var s' := s.(ix := g.ix, calls := s.calls + [Call(k, Foreground, None)]);
        WaitKeeps(w, s', id, r.(phase := AwaitCall(|s.calls|, true)));
      case Blocked =>
        BlockedByRead(w, s, r, disk);
        WaitKeeps(w, s.(ix := g.ix), id, r.(phase := AwaitSpace(s.epoch)));
      case Failed =>
        PrefixDelivered(w, r);
        WaitKeeps(w, s.(ix := g.ix), id, r.(phase := Finished(Error)));
    }
  }

  lemma InflightCall(s: System, k: Key)
    requires CallsOk(s) && k in s.ix.inflight
    ensures s.ix.inflight[k].call < |s.calls|
  {
  }

  lemma PrefixDelivered(w: World, r: Reader)
    requires ValidWorld(w) && Prefix(w, r)
    ensures ReaderOk(w, r.(phase := Finished(Error)))
  {
  }

  lemma BlockedByRead(w: World, s: System, r: Reader, disk: Disk)
    requires ValidWorld(w) && Inv(w, s) && Cached(w, r) && IsChunk(w, KeyOf(w, r))
    requires TryReserve(w, s.ix, KeyOf(w, r), |s.calls|, disk).grant == Blocked
    ensures Busy(TryReserve(w, s.ix, KeyOf(w, r), |s.calls|, disk).ix)
  {
    hide Sound, PinsOk, CallsOk, WaitersOk, NeverComplete, ReadersOk, Busy, EvictUntil;
    BlockedMeansBusy(w, s.ix, KeyOf(w, r), |s.calls|, disk);
  }

  /******* All runs *******/

  lemma StepKeeps(w: World, s: System, e: Event)
    requires ValidWorld(w) && Inv(w, s) && Enabled(w, s, e)
    ensures Inv(w, Step(w, s, e))
  {
    hide Inv, Enabled;
    match e
    case Open(o, removals) => OpenKeeps(w, s, o, removals);
    case StartRead(id, o, offset, length) => StartKeeps(w, s, id, o, offset, length);
    case DirectRead(id, count, outcome) => DirectKeeps(w, s, id, count, outcome);
    case Attempt(id, disk) => AttemptKeeps(w, s, id, disk);
    case Resume(id) => ResumeKeeps(w, s, id);
    case Copy(id, count, ok) => CopyKeeps(w, s, id, count, ok);
    case Release(id) => ReleaseKeeps(w, s, id);
    case Return(id) => ReturnKeeps(w, s, id);
    case Cancel(id) => CancelKeeps(w, s, id);
    case Background(k, kind, spared, disk) => BackgroundKeeps(w, s, k, kind, spared, disk);
    case Finish(k, stored, err) => FinishKeeps(w, s, k, stored, err);
    case Land(k) => LooseKeeps(w, s, s.loose + {k});
    case Sweep(k) => LooseKeeps(w, s, s.loose - {k});
  }

  // The index does not depend on files it does not know.
  lemma LooseKeeps(w: World, s: System, loose: set<Key>)
    requires ValidWorld(w) && Inv(w, s)
    ensures Inv(w, s.(loose := loose))
  {
    hide Sound, Usage, Busy, ReaderOk;
    LooseCalls(s, loose);
    LoosePins(s, loose);
  }

  lemma LooseCalls(s: System, loose: set<Key>)
    requires CallsOk(s)
    ensures CallsOk(s.(loose := loose))
  {
  }

  lemma LoosePins(s: System, loose: set<Key>)
    requires PinsOk(s)
    ensures PinsOk(s.(loose := loose))
  {
  }

  lemma InitialInv(w: World, s: System)
    requires ValidWorld(w) && Initial(w, s)
    ensures Inv(w, s)
  {
    hide Sound, Recover, OwnDirectory;
    var listing, removals :| OwnDirectory(w, listing) && Recover(w, listing, removals) == Some(s.ix);
    RecoverSound(w, listing, removals);
    assert forall k | k in s.ix.chunks :: Holders(s.readers, k) == {};
  }

  lemma {:induction false} ExecKeeps(w: World, s: System, events: seq<Event>)
    requires ValidWorld(w) && Inv(w, s)
    ensures Exec(w, s, events).Some? ==> Inv(w, Exec(w, s, events).value)
    decreases |events|
  {
    hide Inv, Enabled, Step;
    if events != [] && Enabled(w, s, events[0]) {
      StepKeeps(w, s, events[0]);
      ExecKeeps(w, Step(w, s, events[0]), events[1..]);
    }
  }

  // The invariant holds in every reachable state.
  lemma AlwaysInv(w: World, s: System)
    requires ValidWorld(w) && Reachable(w, s)
    ensures Inv(w, s)
  {
    hide Inv, Enabled, Step, Initial;
    var s0, events :| Initial(w, s0) && Exec(w, s0, events) == Some(s);
    InitialInv(w, s0);
    ExecKeeps(w, s0, events);
  }
}

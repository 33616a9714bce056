/**
 What a caller of the cache gets in every reachable state: the right bytes,
 the quota, never a complete file, and never a reader that cannot go on.
 */
module CacheProgress {
  import opened Options
  import opened Numbers
  import opened Sums
  import opened CacheModel
  import opened CacheIndexProofs
  import opened CacheRecovery
  import opened CacheRuns
  import opened CacheSafety

  /******* Safety, as a caller sees it *******/

  // Byte accounting is exact and the quota is never exceeded.
  lemma QuotaAlways(w: World, s: System)
    requires ValidWorld(w) && Reachable(w, s)
    ensures s.ix.current == Sum(Sizes(s.ix.chunks)) && s.ix.reserved == Sum(Expected(s.ix.inflight))
    ensures s.ix.chunks.Keys !! s.ix.inflight.Keys
    ensures s.ix.current + s.ix.reserved <= s.ix.highWater
    ensures w.rolling ==> s.ix.highWater <= w.maxBytes
  {
    hide Reachable, PinsOk, CallsOk, ReadersOk, WaitersOk, NeverComplete, Stamped, Faithful;
    AlwaysInv(w, s);
  }

  // No opened or prefetched object is ever complete: at least one chunk is neither cached nor on its way.
  lemma NeverCompleteAlways(w: World, s: System, o: Object)
    requires ValidWorld(w) && Reachable(w, s) && w.rolling && o in s.tracked
    ensures Usage(s.ix, o) <= Size(w, o) - 1
    ensures exists i :: 0 <= i && IsChunk(w, Key(o, i)) && Key(o, i) !in s.ix.chunks && Key(o, i) !in s.ix.inflight
  {
    hide Reachable, PinsOk, CallsOk, ReadersOk, WaitersOk, Tidy, WithinQuota, Usage, IsChunk;
    AlwaysInv(w, s);
    SomeChunkMissing(w, s.ix, o);
    var i :| 0 <= i && IsChunk(w, Key(o, i)) && !Present(s.ix, Key(o, i));
  }

  // How many bytes a direct read of the object would have delivered.
  function DirectCount(w: World, r: Reader): int
  {
    var remaining := Max(0, Size(w, r.obj) - r.offset);
    if r.length < remaining then r.length else remaining
  }

  // A chunked read is a direct read: same bytes, same count, EOF exactly when cut short.
  lemma ReadRefinesDirect(w: World, s: System, id: nat)
    requires ValidWorld(w) && Reachable(w, s) && id in s.readers
    ensures var r := s.readers[id];
            && (r.got != [] ==>
                  && 0 <= r.offset && r.offset + |r.got| <= Size(w, r.obj)
                  && r.got == w.remote(r.obj)[r.offset..r.offset + |r.got|] && |r.got| <= r.length)
            && (r.phase.Finished? && r.phase.outcome != Error ==>
                  && r.offset >= 0
                  && |r.got| == DirectCount(w, r)
                  && (r.phase.outcome == EndOfFile <==> DirectCount(w, r) < r.length))
  {
    hide Reachable, Inv;
    AlwaysInv(w, s);
    ReaderOf(w, s, id);
  }

  // While a reader holds a chunk, no step evicts or rewrites it.
  lemma PinnedStays(w: World, s: System, e: Event, id: nat, k: Key)
    requires ValidWorld(w) && Reachable(w, s) && Enabled(w, s, e)
    requires id in s.readers && Holds(s.readers[id], k)
    requires id in Step(w, s, e).readers && Holds(Step(w, s, e).readers[id], k)
    ensures IsChunk(w, k) && k in s.ix.chunks && k in Step(w, s, e).ix.chunks
    ensures Step(w, s, e).ix.chunks[k].bytes == s.ix.chunks[k].bytes == Slice(w, k)
  {
    hide Reachable, Inv, Step, Enabled;
    AlwaysInv(w, s);
    StepKeeps(w, s, e);
    HeldChunk(w, s, id, k);
    HeldChunk(w, Step(w, s, e), id, k);
  }

  lemma HeldChunk(w: World, s: System, id: nat, k: Key)
    requires ValidWorld(w) && Inv(w, s) && id in s.readers && Holds(s.readers[id], k)
    ensures k in s.ix.chunks && IsChunk(w, k) && s.ix.chunks[k].bytes == Slice(w, k)
  {
    hide Sound, CallsOk, ReadersOk, WaitersOk, NeverComplete;
    HeldIsPinned(s, id, k);
    ChunkBytes(w, s, k);
  }

  /******* Running schedules *******/

  lemma {:induction false} ExecConcat(w: World, s: System, a: seq<Event>, b: seq<Event>)
    requires ValidWorld(w) && Exec(w, s, a).Some?
    ensures Exec(w, s, a + b) == Exec(w, Exec(w, s, a).value, b)
    decreases |a|
  {
    hide Enabled, Step;
    if a == [] {
      assert a + b == b;
    } else {
      assert (a + b)[0] == a[0] && (a + b)[1..] == a[1..] + b;
      ExecConcat(w, Step(w, s, a[0]), a[1..], b);
    }
  }

  lemma ExecOne(w: World, s: System, e: Event)
    requires ValidWorld(w) && Enabled(w, s, e)
    ensures Exec(w, s, [e]) == Some(Step(w, s, e))
  {
    hide Enabled, Step;
    assert Exec(w, Step(w, s, e), [e][1..]) == Some(Step(w, s, e));
  }

  lemma ExecTwo(w: World, s: System, e: Event, f: Event)
    requires ValidWorld(w) && Enabled(w, s, e) && Enabled(w, Step(w, s, e), f)
    ensures Exec(w, s, [e, f]) == Some(Step(w, Step(w, s, e), f))
  {
    hide Enabled, Step;
    ExecOne(w, s, e);
    ExecOne(w, Step(w, s, e), f);
    ExecConcat(w, s, [e], [f]);
    assert [e] + [f] == [e, f];
  }

  /******* No deadlock *******/

  // A reader holding a chunk can always copy all it came for and let go.
  lemma HolderCanLetGo(w: World, s: System, id: nat) returns (events: seq<Event>, s': System)
    requires ValidWorld(w) && Inv(w, s) && id in s.readers && !HoldsNothing(s.readers[id])
    ensures id in s'.readers && HoldsNothing(s'.readers[id]) && s'.readers == s.readers[id := s'.readers[id]]
    ensures s.readers[id].phase.Holding? ==>
              |s'.readers[id].got| > |s.readers[id].got| && s'.readers[id] == s.readers[id].(phase := Ready, got := s'.readers[id].got)
    ensures s.readers[id].phase.Copied? ==>
              s'.readers[id] == s.readers[id].(phase := if s.readers[id].phase.ok then Ready else Finished(Error))
    ensures s'.epoch == s.epoch + 1 && s'.calls == s.calls && s'.ix.inflight == s.ix.inflight
    ensures forall e | e in events :: (e.Copy? || e.Release?) && e.id == id
    ensures 1 <= |events| <= 2 && Exec(w, s, events) == Some(s') && Inv(w, s')
  {
    hide Inv, Exec;
    var k := s.readers[id].phase.key;
    if s.readers[id].phase.Holding? {
      var n := CopyLength(w, s.readers[id]);
      CanCopy(w, s, id);
      var mid := Step(w, s, Copy(id, n, true));
      StepKeeps(w, s, Copy(id, n, true));
      CanRelease(w, mid, id);
      s' := Step(w, mid, Release(id));
      StepKeeps(w, mid, Release(id));
      ExecTwo(w, s, Copy(id, n, true), Release(id));
      events := [Copy(id, n, true), Release(id)];
    } else {
      CanRelease(w, s, id);
      s' := Step(w, s, Release(id));
      StepKeeps(w, s, Release(id));
      ExecOne(w, s, Release(id));
      events := [Release(id)];
    }
  }

  lemma CanCopy(w: World, s: System, id: nat)
    requires ValidWorld(w) && Inv(w, s) && id in s.readers && s.readers[id].phase.Holding?
    ensures CopyLength(w, s.readers[id]) > 0 && Enabled(w, s, Copy(id, CopyLength(w, s.readers[id]), true))
  {
    hide Inv;
    var r := s.readers[id];
    ReaderOf(w, s, id);
    NextChunk(w, r);
    HeldChunk(w, s, id, r.phase.key);
    ChunkInRange(w, r.phase.key);
  }

  lemma PinsOf(w: World, s: System)
    requires ValidWorld(w) && Inv(w, s)
    ensures PinsOk(s)
  {
    hide Sound, PinsOk, CallsOk, ReadersOk, WaitersOk, NeverComplete;
  }

  lemma CanRelease(w: World, s: System, id: nat)
    requires ValidWorld(w) && Inv(w, s) && id in s.readers && s.readers[id].phase.Copied?
    ensures Enabled(w, s, Release(id))
  {
    hide Inv, PinsOk;
    PinsOf(w, s);
    HeldIsPinned(s, id, s.readers[id].phase.key);
  }

  // A fetch can always end well.
  lemma FetchCanEnd(w: World, s: System, k: Key) returns (s': System)
    requires ValidWorld(w) && Inv(w, s) && k in s.ix.inflight
    ensures Enabled(w, s, Finish(k, true, NoError))
    ensures s' == Step(w, s, Finish(k, true, NoError)) && Exec(w, s, [Finish(k, true, NoError)]) == Some(s') && Inv(w, s')
    ensures s'.epoch == s.epoch + 1 && s'.readers == s.readers && s'.ix.inflight == s.ix.inflight - {k} && k in s'.ix.chunks
    ensures s.ix.inflight[k].call < |s.calls| == |s'.calls|
    ensures forall c | 0 <= c < |s.calls| ::
              s'.calls[c] == if c == s.ix.inflight[k].call then s.calls[c].(ended := Some(NoError)) else s.calls[c]
  {
    hide Inv, Exec;
    CanFinish(w, s, k);
    s' := Step(w, s, Finish(k, true, NoError));
    StepKeeps(w, s, Finish(k, true, NoError));
    ExecOne(w, s, Finish(k, true, NoError));
  }

  lemma CanFinish(w: World, s: System, k: Key)
    requires ValidWorld(w) && Inv(w, s) && k in s.ix.inflight
    ensures Enabled(w, s, Finish(k, true, NoError))
  {
    hide PinsOk, ReadersOk, WaitersOk, NeverComplete, WithinQuota, Accounted, Stamped;
  }

  // In every reachable state each unfinished reader can move after at most two steps of others, none of them a
  // cancellation.
  lemma NoDeadlock(w: World, s: System, id: nat) returns (events: seq<Event>)
    requires ValidWorld(w) && Reachable(w, s) && id in s.readers && !s.readers[id].phase.Finished?
    ensures |events| <= 2 && Exec(w, s, events).Some?
    ensures var s' := Exec(w, s, events).value; id in s'.readers && s'.readers[id] == s.readers[id] && CanMove(w, s', id)
    ensures forall e | e in events :: e.Finish? || ((e.Copy? || e.Release?) && e.id != id)
  {
    hide Inv, Reachable, Exec, CanMove;
    AlwaysInv(w, s);
    if CanMove(w, s, id) {
      events := [];
      assert Exec(w, s, []) == Some(s) by { ExecNothing(w, s); }
    } else {
      var s': System;
      events, s' := Unblock(w, s, id);
    }
  }

  lemma ExecNothing(w: World, s: System)
    requires ValidWorld(w)
    ensures Exec(w, s, []) == Some(s)
  {
  }

  // The reader has a step of its own, other than giving up.
  ghost predicate CanMove(w: World, s: System, id: nat)
    requires ValidWorld(w) && id in s.readers
  {
    exists e :: Enabled(w, s, e) && !e.Cancel? && OwnStep(e, id)
  }

  predicate OwnStep(e: Event, id: nat)
  {
    (e.DirectRead? || e.Attempt? || e.Resume? || e.Copy? || e.Release? || e.Return?) && e.id == id
  }

  lemma CanMoveBy(w: World, s: System, id: nat, e: Event)
    requires ValidWorld(w) && id in s.readers && Enabled(w, s, e) && !e.Cancel? && OwnStep(e, id)
    ensures CanMove(w, s, id)
  {
  }

  // Only a reader waiting for a running fetch or for space cannot move, and what it waits for can happen.
  lemma Unblock(w: World, s: System, id: nat) returns (events: seq<Event>, s': System)
    requires ValidWorld(w) && Inv(w, s) && id in s.readers && !s.readers[id].phase.Finished? && !CanMove(w, s, id)
    ensures 1 <= |events| <= 2 && Exec(w, s, events) == Some(s') && Inv(w, s')
    ensures id in s'.readers && s'.readers[id] == s.readers[id] && HoldsNothing(s.readers[id]) && CanMove(w, s', id)
    ensures forall e | e in events :: e.Finish? || ((e.Copy? || e.Release?) && e.id != id)
  {
    hide Inv, Exec, CanMove, Step;
    var r := s.readers[id];
    OnlyWaitersStuck(w, s, id);
    if r.phase.AwaitCall? {
      var k := s.calls[r.phase.call].key;
      s' := FetchCanEnd(w, s, k);
      events := [Finish(k, true, NoError)];
      CanMoveBy(w, s', id, Resume(id));
    } else if k :| k in s.ix.inflight {
      s' := FetchCanEnd(w, s, k);
      events := [Finish(k, true, NoError)];
      CanMoveBy(w, s', id, Resume(id));
    } else {
      var k :| k in s.ix.chunks && s.ix.chunks[k].pins > 0;
      var holder := PinnedIsHeldInv(w, s, k);
      events, s' := HolderCanLetGo(w, s, holder);
      CanMoveBy(w, s', id, Resume(id));
    }
  }

  lemma OnlyWaitersStuck(w: World, s: System, id: nat)
    requires ValidWorld(w) && Inv(w, s) && id in s.readers && !s.readers[id].phase.Finished? && !CanMove(w, s, id)
    ensures var p := s.readers[id].phase;
            || (p.AwaitCall? && p.call < |s.calls| && s.calls[p.call].ended.None?
                && s.calls[p.call].key in s.ix.inflight && s.ix.inflight[s.calls[p.call].key].call == p.call)
            || (p.AwaitSpace? && p.epoch == s.epoch && Busy(s.ix))
  {
    hide CanMove, Sound, PinsOk, ReadersOk, NeverComplete, Busy;
    var r := s.readers[id];
    match r.phase
    case Ready | Direct => UnpinnedMoves(w, s, id);
    case Holding(_) => CanCopy(w, s, id); CanMoveBy(w, s, id, Copy(id, CopyLength(w, r), true));
    case Copied(_, _) => CanRelease(w, s, id); CanMoveBy(w, s, id, Release(id));
    case AwaitCall(c, _) => if s.calls[c].ended.Some? { CanMoveBy(w, s, id, Resume(id)); }
    case AwaitSpace(e) => if e < s.epoch { CanMoveBy(w, s, id, Resume(id)); }
  }

  lemma UnpinnedMoves(w: World, s: System, id: nat)
    requires ValidWorld(w) && Inv(w, s) && id in s.readers && (s.readers[id].phase == Ready || s.readers[id].phase == Direct)
    ensures CanMove(w, s, id)
  {
    hide Inv, CanMove;
    var r := s.readers[id];
    ReaderOf(w, s, id);
    if r.phase == Direct {
      CanMoveBy(w, s, id, DirectRead(id, Wanted(w, r), if CutShort(w, r) then EndOfFile else Complete));
    } else if Unfinished(w, r) {
      NextChunk(w, r);
      CanMoveBy(w, s, id, Attempt(id, Disk(0, 0)));
    } else {
      CanMoveBy(w, s, id, Return(id));
    }
  }

  lemma PinnedIsHeldInv(w: World, s: System, k: Key) returns (id: nat)
    requires ValidWorld(w) && Inv(w, s) && k in s.ix.chunks && s.ix.chunks[k].pins > 0
    ensures id in s.readers && Holds(s.readers[id], k)
  {
    hide Inv, PinsOk;
    PinsOf(w, s);
    id := PinnedIsHeld(s, k);
  }

  /******* Every reader can be served *******/

  ghost function HoldingSet(readers: map<nat, Reader>): set<nat>
  {
    set i | i in readers && !HoldsNothing(readers[i])
  }

  // Others finish what they hold and every fetch ends well; reader id is left alone.
  lemma {:induction false} Drain(w: World, s: System, id: nat) returns (events: seq<Event>, s': System)
    requires ValidWorld(w) && Inv(w, s) && id in s.readers && HoldsNothing(s.readers[id])
    ensures id in s'.readers && s'.readers[id] == s.readers[id]
    ensures !Busy(s'.ix) && s'.epoch >= s.epoch && (Busy(s.ix) ==> s'.epoch > s.epoch)
    ensures Exec(w, s, events) == Some(s') && Inv(w, s')
    decreases |s.ix.inflight| + |HoldingSet(s.readers)|
  {
    hide Inv, Exec, Step, Busy, Enabled;
    if !Busy(s.ix) {
      events, s' := [], s;
      ExecNothing(w, s);
    } else {
      var first, mid := DrainOne(w, s, id);
      var rest: seq<Event>;
      rest, s' := Drain(w, mid, id);
      ExecConcat(w, s, first, rest);
      events := first + rest;
    }
  }

  lemma DrainOne(w: World, s: System, id: nat) returns (events: seq<Event>, s': System)
    requires ValidWorld(w) && Inv(w, s) && id in s.readers && HoldsNothing(s.readers[id]) && Busy(s.ix)
    ensures id in s'.readers && s'.readers[id] == s.readers[id] && s'.epoch == s.epoch + 1
    ensures |s'.ix.inflight| + |HoldingSet(s'.readers)| < |s.ix.inflight| + |HoldingSet(s.readers)|
    ensures Exec(w, s, events) == Some(s') && Inv(w, s')
  {
    hide Inv, Exec, Step, Enabled;
    if k :| k in s.ix.inflight {
      s' := FetchCanEnd(w, s, k);
      events := [Finish(k, true, NoError)];
    } else {
      var k :| k in s.ix.chunks && s.ix.chunks[k].pins > 0;
      var holder := PinnedIsHeldInv(w, s, k);
      events, s' := HolderCanLetGo(w, s, holder);
      assert HoldingSet(s'.readers) == HoldingSet(s.readers) - {holder};
    }
  }

  // Nothing has gone wrong for this reader yet.
  ghost predicate Unharmed(s: System, id: nat)
    requires id in s.readers
  {
    match s.readers[id].phase
    case Finished(_) => false
    case Copied(_, ok) => ok
    case AwaitCall(c, own) => c < |s.calls| && (s.calls[c].ended.Some? ==> AfterCall(s.calls[c], own) == Ready)
    case _ => true
  }

  lemma ResumeTo(w: World, s: System, id: nat) returns (s': System)
    requires ValidWorld(w) && Inv(w, s) && Enabled(w, s, Resume(id))
    requires s.readers[id].phase.AwaitCall? ==> AfterCall(s.calls[s.readers[id].phase.call], s.readers[id].phase.own) == Ready
    ensures id in s'.readers && s'.readers[id] == s.readers[id].(phase := Ready)
    ensures s'.ix == s.ix && Exec(w, s, [Resume(id)]) == Some(s') && Inv(w, s')
  {
    hide Inv, Exec;
    s' := Step(w, s, Resume(id));
    StepKeeps(w, s, Resume(id));
    ExecOne(w, s, Resume(id));
  }

  // An unharmed reader can get back to the top of its loop without losing bytes.
  lemma Settle(w: World, s: System, id: nat) returns (events: seq<Event>, s': System)
    requires ValidWorld(w) && Inv(w, s) && id in s.readers && Unharmed(s, id) && s.readers[id].phase != Direct
    ensures id in s'.readers && s'.readers[id] == s.readers[id].(phase := Ready, got := s'.readers[id].got)
    ensures Exec(w, s, events) == Some(s') && Inv(w, s')
  {
    hide Inv, Exec, Step;
    var r := s.readers[id];
    if r.phase == Ready {
      events, s' := [], s;
      ExecNothing(w, s);
    } else if r.phase.Holding? || r.phase.Copied? {
      events, s' := HolderCanLetGo(w, s, id);
    } else if r.phase.AwaitCall? && s.calls[r.phase.call].ended.Some? {
      s' := ResumeTo(w, s, id);
      events := [Resume(id)];
    } else if r.phase.AwaitCall? {
      events, s' := SettleCall(w, s, id);
    } else {
      events, s' := SettleSpace(w, s, id);
    }
  }

  lemma SettleCall(w: World, s: System, id: nat) returns (events: seq<Event>, s': System)
    requires ValidWorld(w) && Inv(w, s) && id in s.readers && s.readers[id].phase.AwaitCall?
    requires s.readers[id].phase.call < |s.calls| && s.calls[s.readers[id].phase.call].ended.None?
    ensures id in s'.readers && s'.readers[id] == s.readers[id].(phase := Ready)
    ensures s'.ix.chunks.Keys >= {s.calls[s.readers[id].phase.call].key}
    ensures Exec(w, s, events) == Some(s') && Inv(w, s')
  {
    hide Inv, Exec, Step;
    var c := s.readers[id].phase.call;
    var k := s.calls[c].key;
    RunningKey(w, s, c);
    var mid := FetchCanEnd(w, s, k);
    s' := ResumeTo(w, mid, id);
    ExecConcat(w, s, [Finish(k, true, NoError)], [Resume(id)]);
    events := [Finish(k, true, NoError)] + [Resume(id)];
  }

  lemma RunningKey(w: World, s: System, c: nat)
    requires ValidWorld(w) && Inv(w, s) && c < |s.calls| && s.calls[c].ended.None?
    ensures s.calls[c].key in s.ix.inflight && s.ix.inflight[s.calls[c].key].call == c
  {
    hide Sound, PinsOk, ReadersOk, WaitersOk, NeverComplete;
  }

  lemma SettleSpace(w: World, s: System, id: nat) returns (events: seq<Event>, s': System)
    requires ValidWorld(w) && Inv(w, s) && id in s.readers && s.readers[id].phase.AwaitSpace?
    ensures id in s'.readers && s'.readers[id] == s.readers[id].(phase := Ready)
    ensures Exec(w, s, events) == Some(s') && Inv(w, s')
  {
    hide Inv, Exec, Step, Busy;
    WaiterEpoch(w, s, id);
    var first, mid := Drain(w, s, id);
    s' := ResumeTo(w, mid, id);
    ExecConcat(w, s, first, [Resume(id)]);
    events := first + [Resume(id)];
  }

  lemma WaiterEpoch(w: World, s: System, id: nat)
    requires ValidWorld(w) && Inv(w, s) && id in s.readers && s.readers[id].phase.AwaitSpace?
    ensures s.readers[id].phase.epoch <= s.epoch && (s.readers[id].phase.epoch == s.epoch ==> Busy(s.ix))
  {
    hide Sound, PinsOk, ReadersOk, CallsOk, NeverComplete, Busy;
  }

  // The attempt of a reader whose chunk is cached.
  lemma Hits(w: World, s: System, id: nat) returns (events: seq<Event>, s': System)
    requires ValidWorld(w) && Inv(w, s) && id in s.readers && s.readers[id].phase == Ready && Unfinished(w, s.readers[id])
    requires KeyOf(w, s.readers[id]) in s.ix.chunks
    ensures id in s'.readers && s'.readers[id] == s.readers[id].(phase := Ready, got := s'.readers[id].got)
    ensures |s'.readers[id].got| > |s.readers[id].got|
    ensures Exec(w, s, events) == Some(s') && Inv(w, s')
  {
    hide Inv, Exec, KeyOf, TryReserve;
    ReaderOf(w, s, id);
    NextChunk(w, s.readers[id]);
    var e := Attempt(id, Disk(0, 0));
    var mid := Step(w, s, e);
    StepKeeps(w, s, e);
    ExecOne(w, s, e);
    var rest: seq<Event>;
    rest, s' := HolderCanLetGo(w, mid, id);
    ExecConcat(w, s, [e], rest);
    events := [e] + rest;
  }

  // The attempt of a reader whose chunk must be fetched, in an idle cache.
  lemma Fetches(w: World, s: System, id: nat) returns (events: seq<Event>, s': System)
    requires ValidWorld(w) && Inv(w, s) && id in s.readers && s.readers[id].phase == Ready && Unfinished(w, s.readers[id])
    requires KeyOf(w, s.readers[id]) !in s.ix.chunks && !Busy(s.ix)
    ensures id in s'.readers && s'.readers[id] == s.readers[id] && KeyOf(w, s.readers[id]) in s'.ix.chunks
    ensures Exec(w, s, events) == Some(s') && Inv(w, s')
  {
    hide Inv, Exec, TryReserve;
    var r := s.readers[id];
    ReaderOf(w, s, id);
    NextChunk(w, r);
    var n := |s.ix.chunks|;
    var e := Attempt(id, Disk(n, n));
    assert s.ix.inflight == map[];
    Granting(w, s, KeyOf(w, r), Disk(n, n));
    var mid := Step(w, s, e);
    StepKeeps(w, s, e);
    ExecOne(w, s, e);
    assert mid.calls[|s.calls|] == Call(KeyOf(w, r), Foreground, None);
    var rest: seq<Event>;
    rest, s' := SettleCall(w, mid, id);
    ExecConcat(w, s, [e], rest);
    events := [e] + rest;
  }

  lemma Granting(w: World, s: System, k: Key, disk: Disk)
    requires ValidWorld(w) && Inv(w, s) && IsChunk(w, k) && !Busy(s.ix)
    requires w.rolling ==> Size(w, k.obj) > w.chunkBytes
    requires disk.forObject >= |s.ix.chunks| && disk.forQuota >= |s.ix.chunks|
    ensures TryReserve(w, s.ix, k, |s.calls|, disk).grant == Granted
  {
    hide Sound, PinsOk, ReadersOk, CallsOk, WaitersOk, NeverComplete, Busy, EvictUntil;
    if w.rolling { IdleMeansGranted(w, s.ix, k, |s.calls|, disk); }
  }

  // A ready reader with bytes missing can get more of them.
  lemma GetsMore(w: World, s: System, id: nat) returns (events: seq<Event>, s': System)
    requires ValidWorld(w) && Inv(w, s) && id in s.readers && s.readers[id].phase == Ready && Unfinished(w, s.readers[id])
    ensures id in s'.readers && s'.readers[id] == s.readers[id].(phase := Ready, got := s'.readers[id].got)
    ensures |s'.readers[id].got| > |s.readers[id].got|
    ensures Exec(w, s, events) == Some(s') && Inv(w, s')
  {
    hide Inv, Exec, Step, Busy, KeyOf;
    if KeyOf(w, s.readers[id]) in s.ix.chunks {
      events, s' := Hits(w, s, id);
    } else {
      var first, idle := Drain(w, s, id);
      var second, cached := first, idle;
      if KeyOf(w, s.readers[id]) !in idle.ix.chunks {
        var fetch: seq<Event>;
        fetch, cached := Fetches(w, idle, id);
        ExecConcat(w, s, first, fetch);
        second := first + fetch;
      }
      var third: seq<Event>;
      third, s' := Hits(w, cached, id);
      ExecConcat(w, s, second, third);
      events := second + third;
    }
  }

  lemma {:induction false} GetsAll(w: World, s: System, id: nat) returns (events: seq<Event>, s': System)
    requires ValidWorld(w) && Inv(w, s) && id in s.readers && s.readers[id].phase == Ready
    ensures id in s'.readers && s'.readers[id].phase.Finished? && s'.readers[id].phase.outcome != Error
    ensures Exec(w, s, events) == Some(s') && Inv(w, s')
    decreases Wanted(w, s.readers[id]) - |s.readers[id].got|
  {
    hide Inv, Exec;
    if !Unfinished(w, s.readers[id]) {
      s' := Step(w, s, Return(id));
      StepKeeps(w, s, Return(id));
      ExecOne(w, s, Return(id));
      events := [Return(id)];
    } else {
      var first, mid := GetsMore(w, s, id);
      var rest: seq<Event>;
      rest, s' := GetsAll(w, mid, id);
      ExecConcat(w, s, first, rest);
      events := first + rest;
    }
  }

  // From every reachable state, a read that has not yet failed has a schedule in which it succeeds.
  lemma ReadCanSucceed(w: World, s: System, id: nat) returns (events: seq<Event>)
    requires ValidWorld(w) && Reachable(w, s) && id in s.readers && Unharmed(s, id)
    ensures Exec(w, s, events).Some?
    ensures var s' := Exec(w, s, events).value;
            id in s'.readers && s'.readers[id].phase.Finished? && s'.readers[id].phase.outcome != Error
  {
    hide Inv, Exec, Reachable;
    AlwaysInv(w, s);
    var s': System;
    if s.readers[id].phase == Direct {
      ReaderOf(w, s, id);
      var r := s.readers[id];
      var e := DirectRead(id, Wanted(w, r), if CutShort(w, r) then EndOfFile else Complete);
      ExecOne(w, s, e);
      events := [e];
    } else {
      var first, mid := Settle(w, s, id);
      var rest: seq<Event>;
      rest, s' := GetsAll(w, mid, id);
      ExecConcat(w, s, first, rest);
      events := first + rest;
    }
  }
}

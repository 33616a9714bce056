/**
 The chunk files themselves: those the index knows, and those a fetch has put
 in place without the index knowing, because it has not reported yet or
 because it failed afterwards and could not remove its file.
 */
module CacheFiles {
  import opened Options
  import opened CacheModel
  import opened CacheIndexProofs
  import opened CacheRecovery
  import opened CacheRuns
  import opened CacheSafety
  import opened CacheProgress

  ghost predicate HasFile(s: System, k: Key) { k in s.ix.chunks || k in s.loose }

  ghost predicate CompleteOnDisk(w: World, s: System, o: Object)
  {
    forall i | 0 <= i && IsChunk(w, Key(o, i)) :: HasFile(s, Key(o, i))
  }

  // Every file the index does not know belongs to a fetch that is still running.
  ghost predicate NoStrays(s: System) { s.loose <= s.ix.inflight.Keys }

  /******* What a step does to the fetches *******/

  ghost predicate Big(w: World, k: Key) { Size(w, k.obj) > w.chunkBytes }

  // Fetches already running go on; any that starts is for an object of more than one chunk.
  ghost predicate Continues(w: World, before: map<Key, Fetch>, after: map<Key, Fetch>)
  {
    before.Keys <= after.Keys && forall k | k in after && k !in before :: w.rolling ==> Big(w, k)
  }

  // A chunk that leaves its object incomplete belongs to an object of more than one chunk.
  lemma RoomMeansBig(w: World, k: Key)
    requires ValidWorld(w) && IsChunk(w, k) && ChunkSize(w, k) <= Size(w, k.obj) - 1
    ensures Big(w, k)
  {
    if k.index > 0 { Scale(1, k.index, w.chunkBytes); }
  }

  lemma ReservationContinues(w: World, ix: Index, k: Key, fetch: Fetch, r: Reservation)
    requires ValidWorld(w) && ReservationOk(w, ix, k, fetch, r) && IsChunk(w, k) && k !in ix.inflight && fetch.expected == ChunkSize(w, k)
    requires w.rolling && r.grant == Granted ==> Usage(r.ix, k.obj) <= Size(w, k.obj) - 1
    ensures Continues(w, ix.inflight, r.ix.inflight)
  {
    hide Sound, Usage, IsChunk;
    if r.grant == Granted {
      var room: Index :| OnlyEvicted(ix, room) && r.ix == Reserve(room, k, fetch);
      ReserveUsage(room, k, fetch, k.obj);
      if w.rolling { RoomMeansBig(w, k); }
    }
  }

  lemma AttemptContinues(w: World, s: System, id: nat, disk: Disk)
    requires ValidWorld(w) && Inv(w, s) && Enabled(w, s, Attempt(id, disk))
    ensures Continues(w, s.ix.inflight, Step(w, s, Attempt(id, disk)).ix.inflight)
  {
    hide Sound, PinsOk, CallsOk, ReadersOk, WaitersOk, NeverComplete, TryReserve, IsChunk, ReservationOk, Usage;
    var k := KeyOf(w, s.readers[id]);
    if k !in s.ix.chunks && k !in s.ix.inflight {
      var r := TryReserve(w, s.ix, k, |s.calls|, disk);
      TryReserveOk(w, s.ix, k, |s.calls|, disk);
      if w.rolling { TryReserveUsage(w, s.ix, k, |s.calls|, disk, k.obj); }
      ReservationContinues(w, s.ix, k, Fetch(ChunkSize(w, k), Foreground, |s.calls|), r);
    }
  }

  lemma BackgroundContinues(w: World, s: System, k: Key, kind: Kind, spared: Option<Key>, disk: Disk)
    requires ValidWorld(w) && Inv(w, s) && Enabled(w, s, Background(k, kind, spared, disk))
    ensures Continues(w, s.ix.inflight, Step(w, s, Background(k, kind, spared, disk)).ix.inflight)
  {
    hide Sound, PinsOk, CallsOk, ReadersOk, WaitersOk, NeverComplete, TryReserveBackground, ReservationOk, Usage;
    var r := TryReserveBackground(w, s.ix, k, kind, spared, |s.calls|, disk);
    TryReserveBackgroundOk(w, s.ix, k, kind, spared, |s.calls|, disk);
    if w.rolling { TryReserveBackgroundUsage(w, s.ix, k, kind, spared, |s.calls|, disk, k.obj); }
    ReservationContinues(w, s.ix, k, Fetch(ChunkSize(w, k), kind, |s.calls|), r);
  }

  // A fetch is given up only by its own end.
  lemma StepContinues(w: World, s: System, e: Event)
    requires ValidWorld(w) && Inv(w, s) && Enabled(w, s, e)
    ensures !e.Finish? ==> Continues(w, s.ix.inflight, Step(w, s, e).ix.inflight)
    ensures e.Finish? ==> Step(w, s, e).ix.inflight.Keys == s.ix.inflight.Keys - {e.key}
  {
    hide Inv, EvictUntil, IsChunk;
    match e
    case Open(o, removals) => EvictUntilOnly(s.ix, KeepIncomplete(w, o, 0, None), removals);
    case Attempt(id, disk) => AttemptContinues(w, s, id, disk);
    case Background(k, kind, spared, disk) => BackgroundContinues(w, s, k, kind, spared, disk);
    case _ =>
  }

  lemma StepLoose(w: World, s: System, e: Event)
    requires ValidWorld(w) && Enabled(w, s, e)
    ensures Step(w, s, e).loose ==
            match e
            case Land(k) => s.loose + {k}
            case Sweep(k) => s.loose - {k}
            case Finish(k, stored, _) => if stored then s.loose - {k} else s.loose
            case _ => s.loose
  {
    hide EvictUntil, AcquirePass, TryReserveBackground, IsChunk;
  }

  /******* Runs that clean up after failed fetches *******/

  // No fetch of the run fails with its file in place: where rename was followed by an error, the file was removed.
  ghost predicate CleansUp(w: World, s: System, events: seq<Event>)
    requires ValidWorld(w)
    decreases |events|
  {
    events != [] && Enabled(w, s, events[0]) ==>
      && !(events[0].Finish? && !events[0].stored && events[0].key in s.loose)
      && CleansUp(w, Step(w, s, events[0]), events[1..])
  }

  // At no moment of the run is there a file that neither the index nor a running fetch accounts for.
  ghost predicate NeverStrays(w: World, s: System, events: seq<Event>)
    requires ValidWorld(w)
    decreases |events|
  {
    NoStrays(s) && (events != [] && Enabled(w, s, events[0]) ==> NeverStrays(w, Step(w, s, events[0]), events[1..]))
  }

  lemma StepStrays(w: World, s: System, e: Event)
    requires ValidWorld(w) && Inv(w, s) && Enabled(w, s, e) && NoStrays(s)
    ensures NoStrays(Step(w, s, e)) <==> !(e.Finish? && !e.stored && e.key in s.loose)
  {
    hide Inv, Step, Big, IsChunk;
    StepContinues(w, s, e);
    StepLoose(w, s, e);
  }

  // Stray files appear in a run exactly when some fetch fails and leaves its file.
  lemma {:induction false} StraysIff(w: World, s: System, events: seq<Event>)
    requires ValidWorld(w) && Inv(w, s) && NoStrays(s)
    ensures NeverStrays(w, s, events) <==> CleansUp(w, s, events)
    decreases |events|
  {
    hide Inv, Step, Enabled, NoStrays;
    if events != [] && Enabled(w, s, events[0]) {
      StepStrays(w, s, events[0]);
      if NoStrays(Step(w, s, events[0])) {
        StepKeeps(w, s, events[0]);
        StraysIff(w, Step(w, s, events[0]), events[1..]);
      } else {
        assert !NeverStrays(w, Step(w, s, events[0]), events[1..]);
      }
    }
  }

  lemma {:induction false} EndsWithoutStrays(w: World, s: System, events: seq<Event>)
    requires ValidWorld(w) && NeverStrays(w, s, events) && Exec(w, s, events).Some?
    ensures NoStrays(Exec(w, s, events).value)
    decreases |events|
  {
    hide Step, Enabled, NoStrays;
    if events != [] { EndsWithoutStrays(w, Step(w, s, events[0]), events[1..]); }
  }

  // In a run that cleans up after its failed fetches, no opened object is ever complete on disk.
  lemma CleanRunsNeverComplete(w: World, s0: System, events: seq<Event>, o: Object)
    requires ValidWorld(w) && Initial(w, s0) && Exec(w, s0, events).Some? && CleansUp(w, s0, events)
    ensures var s := Exec(w, s0, events).value; NoStrays(s) && (w.rolling && o in s.tracked ==> !CompleteOnDisk(w, s, o))
  {
    hide Inv, Exec, CleansUp, NeverStrays, IsChunk;
    InitialInv(w, s0);
    StraysIff(w, s0, events);
    EndsWithoutStrays(w, s0, events);
    var s := Exec(w, s0, events).value;
    if w.rolling && o in s.tracked {
      assert Reachable(w, s);
      NeverCompleteAlways(w, s, o);
      var i :| 0 <= i && IsChunk(w, Key(o, i)) && Key(o, i) !in s.ix.chunks && Key(o, i) !in s.ix.inflight;
      assert !HasFile(s, Key(o, i));
    }
  }

  // In any run, the missing chunk of an opened object that is complete on disk is a stray file.
  lemma CompleteMeansStray(w: World, s: System, o: Object)
    requires ValidWorld(w) && Reachable(w, s) && w.rolling && o in s.tracked && CompleteOnDisk(w, s, o)
    ensures exists i :: 0 <= i && IsChunk(w, Key(o, i)) && Key(o, i) in s.loose && Key(o, i) !in s.ix.chunks && Key(o, i) !in s.ix.inflight
  {
    hide Reachable, IsChunk;
    NeverCompleteAlways(w, s, o);
    var i :| 0 <= i && IsChunk(w, Key(o, i)) && Key(o, i) !in s.ix.chunks && Key(o, i) !in s.ix.inflight;
    assert HasFile(s, Key(o, i));
  }

  /******* Objects of one chunk *******/

  ghost predicate BigFiles(w: World, s: System) { w.rolling ==> forall k | k in s.ix.inflight || k in s.loose :: Big(w, k) }

  lemma StepBig(w: World, s: System, e: Event)
    requires ValidWorld(w) && Inv(w, s) && Enabled(w, s, e) && BigFiles(w, s)
    ensures BigFiles(w, Step(w, s, e))
  {
    hide Inv, Step, Big, IsChunk;
    StepContinues(w, s, e);
    StepLoose(w, s, e);
  }

  lemma {:induction false} ExecBig(w: World, s: System, events: seq<Event>)
    requires ValidWorld(w) && Inv(w, s) && BigFiles(w, s) && Exec(w, s, events).Some?
    ensures BigFiles(w, Exec(w, s, events).value)
    decreases |events|
  {
    hide Inv, Step, Enabled, BigFiles;
    if events != [] {
      StepBig(w, s, events[0]);
      StepKeeps(w, s, events[0]);
      ExecBig(w, Step(w, s, events[0]), events[1..]);
    }
  }

  lemma InitialBig(w: World, s: System)
    requires ValidWorld(w) && Initial(w, s)
    ensures BigFiles(w, s)
  {
    hide Recover, OwnDirectory, Sound;
    var listing, removals :| OwnDirectory(w, listing) && Recover(w, listing, removals) == Some(s.ix);
    RecoverSound(w, listing, removals);
  }

  // Only an object of more than one chunk is ever complete on disk.
  lemma CompleteIsBig(w: World, s: System, o: Object)
    requires ValidWorld(w) && w.rolling && Reachable(w, s) && o in s.tracked && CompleteOnDisk(w, s, o)
    ensures Size(w, o) > w.chunkBytes
  {
    hide Inv, Exec, Initial, IsChunk, CompleteOnDisk;
    var s0, events :| Initial(w, s0) && Exec(w, s0, events) == Some(s);
    InitialInv(w, s0);
    InitialBig(w, s0);
    ExecBig(w, s0, events);
    CompleteMeansStray(w, s, o);
    var i :| 0 <= i && IsChunk(w, Key(o, i)) && Key(o, i) in s.loose;
    assert Big(w, Key(o, i));
  }

  /******* Objects of several chunks *******/

  predicate Bare(ix: Index) { ix.chunks == map[] && ix.inflight == map[] && ix.current == 0 && ix.reserved == 0 }

  // On a bare index every chunk of an object of several chunks may be fetched.
  lemma BareGrants(w: World, ix: Index, k: Key, call: nat)
    requires ValidWorld(w) && w.rolling && Bare(ix) && IsChunk(w, k) && Big(w, k)
    ensures TryReserve(w, ix, k, call, Disk(0, 0)) == Reservation(Reserve(ix, k, Fetch(ChunkSize(w, k), Foreground, call)), Granted)
  {
    TakenAll(k.obj);
  }

  function Landing(w: World, id: nat, k: Key): seq<Event>
  {
    [StartRead(id, k.obj, k.index * w.chunkBytes, 1), Attempt(id, Disk(0, 0)), Land(k)]
  }

  // A read of one byte that has got as far as its fetched file being in place.
  lemma FetchLands(w: World, s: System, id: nat, k: Key) returns (s': System)
    requires ValidWorld(w) && w.rolling && Bare(s.ix) && k.obj in s.tracked && id !in s.readers && IsChunk(w, k) && Big(w, k)
    ensures Exec(w, s, Landing(w, id, k)) == Some(s')
    ensures s'.ix == Reserve(s.ix, k, Fetch(ChunkSize(w, k), Foreground, |s.calls|)) && s'.calls == s.calls + [Call(k, Foreground, None)]
    ensures s'.loose == s.loose + {k} && s'.tracked == s.tracked && s'.readers.Keys == s.readers.Keys + {id}
  {
    hide IsChunk, TryReserve;
    var start := StartRead(id, k.obj, k.index * w.chunkBytes, 1);
    FirstByte(w, k);
    var begun := Step(w, s, start);
    BareGrants(w, s.ix, k, |s.calls|);
    var reserved := Step(w, begun, Attempt(id, Disk(0, 0)));
    s' := Step(w, reserved, Land(k));
    ThreeEvents(w, s, start, Attempt(id, Disk(0, 0)), Land(k));
  }

  lemma FirstByte(w: World, k: Key)
    requires ValidWorld(w) && w.rolling && IsChunk(w, k) && Big(w, k)
    ensures var r := Begin(w, k.obj, k.index * w.chunkBytes, 1); r.phase == Ready && r.got == [] && Unfinished(w, r) && KeyOf(w, r) == k
  {
    hide IsChunk;
    ChunkInRange(w, k);
    NonNegative(w, k);
    Exact(k.index, w.chunkBytes);
  }

  lemma NonNegative(w: World, k: Key)
    requires IsChunk(w, k)
    ensures k.index >= 0
  {
  }

  lemma Exact(i: nat, c: int)
    requires c > 0
    ensures (i * c) / c == i
  {
    var x := i * c;
    Split(x, c);
    SameMultiple(i, x / c, c, x % c);
  }

  // Two multiples less than one step apart are the same.
  lemma SameMultiple(i: int, q: int, c: int, r: int)
    requires i * c == q * c + r && 0 <= r < c
    ensures q == i
  {
    if q < i { AtLeastOne(i - q, c); }
    if q > i { AtLeastOne(q - i, c); }
  }

  lemma AtLeastOne(d: int, c: int)
    requires d >= 1 && c > 0
    ensures d * c >= c
  {
  }

  lemma ThreeEvents(w: World, s: System, a: Event, b: Event, c: Event)
    requires ValidWorld(w) && Enabled(w, s, a) && Enabled(w, Step(w, s, a), b) && Enabled(w, Step(w, Step(w, s, a), b), c)
    ensures Exec(w, s, [a, b, c]) == Some(Step(w, Step(w, Step(w, s, a), b), c))
  {
    hide Enabled, Step;
    ExecTwo(w, s, a, b);
    ExecOne(w, Step(w, Step(w, s, a), b), c);
    ExecConcat(w, s, [a, b], [c]);
    assert [a, b] + [c] == [a, b, c];
  }

  // The only fetch fails, and its file stays.
  lemma FetchStrands(w: World, s: System, k: Key) returns (s': System)
    requires ValidWorld(w) && IsChunk(w, k) && |s.calls| > 0 && s.ix.inflight.Keys == {k} && s.ix.inflight[k].call == |s.calls| - 1
    requires s.ix.chunks == map[] && s.ix.current == 0 && s.ix.reserved == s.ix.inflight[k].expected
    ensures Exec(w, s, [Finish(k, false, OtherError)]) == Some(s') && Bare(s'.ix)
    ensures s'.tracked == s.tracked && s'.readers == s.readers && s'.loose == s.loose
  {
    ExecOne(w, s, Finish(k, false, OtherError));
    s' := Step(w, s, Finish(k, false, OtherError));
  }

  ghost function Start(): System { System(Index(map[], map[], 0, 0, 0, 0), [], 0, map[], {}, {}) }

  lemma StartIsInitial(w: World)
    requires ValidWorld(w) && w.rolling
    ensures Initial(w, Start())
  {
    assert Recover(w, [], 0) == Some(Start().ix);
    assert OwnDirectory(w, []);
  }

  lemma Opens(w: World, o: Object) returns (s: System)
    requires ValidWorld(w) && w.rolling && w.chunkBytes < Size(w, o)
    ensures Exec(w, Start(), [Open(o, 0)]) == Some(s) && s == Start().(tracked := {o})
  {
    TakenAll(o);
    s := Start().(tracked := {o});
    assert Step(w, Start(), Open(o, 0)) == s;
    ExecOne(w, Start(), Open(o, 0));
  }

  // After n failed fetches the first n chunk files are on disk and the index is bare again.
  ghost predicate Stranded(s: System, o: Object, n: nat)
  {
    && Bare(s.ix) && o in s.tracked && (forall i | 0 <= i < n :: Key(o, i) in s.loose)
    && (forall id | id in s.readers :: id < n)
  }

  lemma {:induction false} StrandAll(w: World, o: Object, n: nat) returns (events: seq<Event>, s: System)
    requires ValidWorld(w) && w.rolling && Size(w, o) > w.chunkBytes && forall i | 0 <= i < n :: IsChunk(w, Key(o, i))
    ensures Exec(w, Start(), events) == Some(s) && Stranded(s, o, n)
  {
    hide Exec, IsChunk;
    if n == 0 {
      s := Opens(w, o);
      events := [Open(o, 0)];
    } else {
      var before, mid := StrandAll(w, o, n - 1);
      var k := Key(o, n - 1);
      var landed := FetchLands(w, mid, n - 1, k);
      s := FetchStrands(w, landed, k);
      ExecConcat(w, Start(), before, Landing(w, n - 1, k));
      ExecConcat(w, Start(), before + Landing(w, n - 1, k), [Finish(k, false, OtherError)]);
      events := before + Landing(w, n - 1, k) + [Finish(k, false, OtherError)];
    }
  }

  // Any opened object of more than one chunk can end up whole on disk, if its fetches fail and leave their files.
  lemma StrayCompletes(w: World, o: Object) returns (s: System)
    requires ValidWorld(w) && w.rolling && Size(w, o) > w.chunkBytes
    ensures Reachable(w, s) && o in s.tracked && CompleteOnDisk(w, s, o)
  {
    hide Exec, Initial;
    var n := ChunkCount(Size(w, o), w.chunkBytes);
    forall i | 0 <= i < n ensures IsChunk(w, Key(o, i)) { Scale(i, n - 1, w.chunkBytes); }
    var events: seq<Event>;
    events, s := StrandAll(w, o, n);
    StartIsInitial(w);
    forall i | 0 <= i && IsChunk(w, Key(o, i)) ensures HasFile(s, Key(o, i)) {
      if i >= n { Scale(n, i, w.chunkBytes); }
    }
  }

  // Whether an opened object can ever be complete on disk is decided by its size alone.
  lemma CompleteOnDiskIff(w: World, o: Object)
    requires ValidWorld(w) && w.rolling
    ensures (exists s :: Reachable(w, s) && o in s.tracked && CompleteOnDisk(w, s, o)) <==> Size(w, o) > w.chunkBytes
  {
    hide Reachable, CompleteOnDisk;
    if Size(w, o) > w.chunkBytes {
      var s := StrayCompletes(w, o);
    }
    if exists s :: Reachable(w, s) && o in s.tracked && CompleteOnDisk(w, s, o) {
      var s :| Reachable(w, s) && o in s.tracked && CompleteOnDisk(w, s, o);
      CompleteIsBig(w, s, o);
    }
  }
}

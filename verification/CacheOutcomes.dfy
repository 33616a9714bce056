/** How reads end: every read that is started can succeed, and one that fails has a cause. */
module CacheOutcomes {
  import opened Options
  import opened Numbers
  import opened CacheModel
  import opened CacheIndexProofs
  import opened CacheRuns
  import opened CacheProgress

  /******* What a read was asked for *******/

  ghost predicate Asked(s: System, id: nat, o: Object, offset: int, length: nat)
  {
    id in s.readers && s.readers[id].obj == o && s.readers[id].offset == offset && s.readers[id].length == length
  }

  lemma StepAsked(w: World, s: System, e: Event, id: nat, o: Object, offset: int, length: nat)
    requires ValidWorld(w) && Enabled(w, s, e) && Asked(s, id, o, offset, length)
    ensures Asked(Step(w, s, e), id, o, offset, length)
  {
    hide AcquirePass, EvictUntil, TryReserveBackground, IsChunk;
  }

  lemma {:induction false} ExecAsked(w: World, s: System, events: seq<Event>, id: nat, o: Object, offset: int, length: nat)
    requires ValidWorld(w) && Exec(w, s, events).Some? && Asked(s, id, o, offset, length)
    ensures Asked(Exec(w, s, events).value, id, o, offset, length)
    decreases |events|
  {
    hide Step, Enabled;
    if events != [] {
      StepAsked(w, s, events[0], id, o, offset, length);
      ExecAsked(w, Step(w, s, events[0]), events[1..], id, o, offset, length);
    }
  }

  lemma ReachableOn(w: World, s: System, events: seq<Event>)
    requires ValidWorld(w) && Reachable(w, s) && Exec(w, s, events).Some?
    ensures Reachable(w, Exec(w, s, events).value)
  {
    hide Exec, Initial;
    var s0, before :| Initial(w, s0) && Exec(w, s0, before) == Some(s);
    ExecConcat(w, s0, before, events);
  }

  /******* Every read can succeed *******/

  // A read at a valid offset of an opened object, started in any reachable state, has a schedule in which it delivers
  // exactly the bytes a direct read would.
  lemma EveryReadCanSucceed(w: World, s: System, id: nat, o: Object, offset: int, length: nat) returns (events: seq<Event>)
    requires ValidWorld(w) && Reachable(w, s) && o in s.tracked && id !in s.readers && offset >= 0
    ensures Exec(w, s, [StartRead(id, o, offset, length)] + events).Some?
    ensures var s' := Exec(w, s, [StartRead(id, o, offset, length)] + events).value;
            && id in s'.readers && s'.readers[id].phase.Finished? && s'.readers[id].phase.outcome != Error
            && (var n := Min(length, Max(0, Size(w, o) - offset));
                && |s'.readers[id].got| == n && (n > 0 ==> s'.readers[id].got == w.remote(o)[offset..offset + n])
                && (s'.readers[id].phase.outcome == EndOfFile <==> n < length))
  {
    hide Exec, Reachable;
    var start := StartRead(id, o, offset, length);
    var begun := Step(w, s, start);
    ExecOne(w, s, start);
    ReachableOn(w, s, [start]);
    events := [];
    if begun.readers[id].phase.Finished? {
      ExecNothing(w, begun);
    } else {
      events := ReadCanSucceed(w, begun, id);
    }
    ExecConcat(w, s, [start], events);
    var s' := Exec(w, begun, events).value;
    ExecAsked(w, begun, events, id, o, offset, length);
    ReachableOn(w, begun, events);
    ReadRefinesDirect(w, s', id);
  }

  /******* Every failure has a cause *******/

  // A deletion the reservation needs fails.
  ghost predicate DeletionFails(w: World, ix: Index, k: Key, disk: Disk)
  {
    var first := EvictUntil(ix, KeepIncomplete(w, k.obj, ChunkSize(w, k), None), disk.forObject);
    var second := EvictUntil(first.ix, ForQuota(w.maxBytes, ChunkSize(w, k), None), disk.forQuota);
    w.rolling && (first.space == RemoveFailed || (first.space == Fits && second.space == RemoveFailed))
  }

  // The fetch a reader waited for ended in an error that is its own: not the cancellation of a prefetch it had joined.
  ghost predicate FetchFails(s: System, id: nat)
    requires id in s.readers && s.readers[id].phase.AwaitCall? && s.readers[id].phase.call < |s.calls|
    requires s.calls[s.readers[id].phase.call].ended.Some?
  {
    var call, own := s.calls[s.readers[id].phase.call], s.readers[id].phase.own;
    call.ended.value != NoError && (own || call.kind == Foreground || call.ended.value != Canceled)
  }

  // The event is a cause for the reader to fail.
  ghost predicate Harms(w: World, s: System, e: Event, id: nat)
    requires ValidWorld(w) && Enabled(w, s, e)
  {
    match e
    case Cancel(i) => i == id
    case DirectRead(i, _, outcome) => i == id && outcome == Error
    case Copy(i, _, ok) => i == id && !ok
    case Attempt(i, disk) =>
      && i == id
      && (var k := KeyOf(w, s.readers[i]); k !in s.ix.chunks && k !in s.ix.inflight && DeletionFails(w, s.ix, k, disk))
    case Resume(i) => i == id && s.readers[i].phase.AwaitCall? && FetchFails(s, i)
    case _ => false
  }

  // The reader has failed, or has copied badly and will.
  ghost predicate Failed(s: System, id: nat)
  {
    id in s.readers && (s.readers[id].phase == Finished(Error) || (s.readers[id].phase.Copied? && !s.readers[id].phase.ok))
  }

  lemma RefusedIff(w: World, ix: Index, k: Key, call: nat, disk: Disk)
    requires IsChunk(w, k)
    ensures AcquirePass(w, ix, k, call, disk).pass == Refused <==> k !in ix.chunks && k !in ix.inflight && DeletionFails(w, ix, k, disk)
  {
    hide EvictUntil;
  }

  // One step makes a started reader fail exactly if it is such a cause.
  lemma StepFails(w: World, s: System, e: Event, id: nat)
    requires ValidWorld(w) && Enabled(w, s, e) && id in s.readers
    ensures Failed(Step(w, s, e), id) <==> Failed(s, id) || Harms(w, s, e, id)
  {
    hide AcquirePass, EvictUntil, TryReserveBackground, IsChunk, DeletionFails;
    match e
    case Attempt(i, disk) => RefusedIff(w, s.ix, KeyOf(w, s.readers[i]), |s.calls|, disk);
    case _ =>
  }

  // Some event of the run was a cause.
  ghost predicate Harmed(w: World, s: System, events: seq<Event>, id: nat)
    requires ValidWorld(w)
    decreases |events|
  {
    events != [] && Enabled(w, s, events[0]) && (Harms(w, s, events[0], id) || Harmed(w, Step(w, s, events[0]), events[1..], id))
  }

  lemma {:induction false} RunFails(w: World, s: System, events: seq<Event>, id: nat)
    requires ValidWorld(w) && Exec(w, s, events).Some? && id in s.readers
    ensures Failed(Exec(w, s, events).value, id) <==> Failed(s, id) || Harmed(w, s, events, id)
    decreases |events|
  {
    hide Step, Enabled, Failed, Harms;
    if events != [] {
      var r := s.readers[id];
      StepAsked(w, s, events[0], id, r.obj, r.offset, r.length);
      StepFails(w, s, events[0], id);
      RunFails(w, Step(w, s, events[0]), events[1..], id);
    }
  }

  // From its start on, a read fails over any run exactly if its offset was negative or the run holds a cause for it.
  lemma FailsExactlyWithCause(w: World, s: System, id: nat, o: Object, offset: int, length: nat, events: seq<Event>)
    requires ValidWorld(w) && Enabled(w, s, StartRead(id, o, offset, length))
    requires Exec(w, Step(w, s, StartRead(id, o, offset, length)), events).Some?
    ensures var begun := Step(w, s, StartRead(id, o, offset, length));
            Failed(Exec(w, begun, events).value, id) <==> offset < 0 || Harmed(w, begun, events, id)
  {
    hide Exec, Harmed;
    var begun := Step(w, s, StartRead(id, o, offset, length));
    assert Failed(begun, id) <==> offset < 0;
    RunFails(w, begun, events, id);
  }

  // With deletions that work there is no refusal.
  lemma WorkingDeletions(w: World, ix: Index, k: Key, disk: Disk)
    requires disk.forObject >= |ix.chunks| && disk.forQuota >= |ix.chunks|
    ensures !DeletionFails(w, ix, k, disk)
  {
    hide EvictUntil;
    var d := KeepIncomplete(w, k.obj, ChunkSize(w, k), None);
    var first := EvictUntil(ix, d, disk.forObject);
    EvictUntilVerdict(ix, d, disk.forObject);
    EvictUntilOnly(ix, d, disk.forObject);
    SubsetSize(first.ix.chunks.Keys, ix.chunks.Keys);
    EvictUntilVerdict(first.ix, ForQuota(w.maxBytes, ChunkSize(w, k), None), disk.forQuota);
  }
}

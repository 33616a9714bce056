/**
 The cache under any number of concurrent readers. Each event is one atomic
 step: a locked section, a copy out of a pinned chunk, the end of a fetch, or
 a context being cancelled. An event list is a schedule; Exec runs it.
 */
module CacheRuns {
  import opened Options
  import opened Numbers
  import opened Bytes
  import opened CacheModel
  import opened CacheIndexProofs
  import opened CacheRecovery

  datatype FetchError = NoError | Canceled | OtherError

  // ended is what the closed done channel reports.
  datatype Call = Call(key: Key, kind: Kind, ended: Option<FetchError>)

  datatype Outcome = Complete | EndOfFile | Error

  datatype Phase =
    | Ready                               // between locked sections of the read loop
    | Direct                              // reading a one-chunk object past the disk
    | AwaitCall(call: nat, own: bool)     // blocked on a fetch
    | AwaitSpace(epoch: nat)              // blocked on the notify channel captured at that epoch
    | Holding(key: Key)                   // has pinned a chunk
    | Copied(key: Key, ok: bool)          // has copied from it, not yet released it
    | Finished(outcome: Outcome)

  // One ReadAt call: its arguments, the bytes written so far, and where it is.
  datatype Reader = Reader(obj: Object, offset: int, length: nat, got: seq<Byte>, phase: Phase)

  // epoch counts signalLocked calls: a waiter from an earlier epoch has been woken. loose holds the chunk files that
  // fetches have put in place and the index does not know, yet or any more.
  datatype System = System(
    ix: Index,
    calls: seq<Call>,
    epoch: nat,
    readers: map<nat, Reader>,
    tracked: set<Object>,
    loose: set<Key>)

  datatype Event =
    | Open(obj: Object, removals: nat)
    | StartRead(id: nat, obj: Object, offset: int, length: nat)
    | DirectRead(id: nat, count: nat, outcome: Outcome)
    | Attempt(id: nat, disk: Disk)
    | Resume(id: nat)
    | Copy(id: nat, count: nat, ok: bool)
    | Release(id: nat)
    | Return(id: nat)
    | Cancel(id: nat)
    | Background(key: Key, kind: Kind, spared: Option<Key>, disk: Disk)
    | Finish(key: Key, stored: bool, err: FetchError)
    | Land(key: Key)
    | Sweep(key: Key)

  /******* The read loop's arithmetic *******/

  function Wanted(w: World, r: Reader): int
  {
    var remaining := Size(w, r.obj) - r.offset;
    if r.length > remaining then remaining else r.length
  }

  predicate CutShort(w: World, r: Reader) { r.length > Size(w, r.obj) - r.offset }

  function KeyOf(w: World, r: Reader): Key
    requires w.chunkBytes > 0
  {
    Key(r.obj, (r.offset + |r.got|) / w.chunkBytes)
  }

  function Within(w: World, r: Reader): int
    requires w.chunkBytes > 0
  {
    (r.offset + |r.got|) % w.chunkBytes
  }

  function CopyLength(w: World, r: Reader): int
    requires w.chunkBytes > 0
  {
    var n := ChunkSize(w, KeyOf(w, r)) - Within(w, r);
    if n > Wanted(w, r) - |r.got| then Wanted(w, r) - |r.got| else n
  }

  predicate Unfinished(w: World, r: Reader) { |r.got| < Wanted(w, r) }

  /******* Steps *******/

  function Put(s: System, id: nat, r: Reader): System { s.(readers := s.readers[id := r]) }

  ghost function OpenStep(w: World, s: System, o: Object, removals: nat): System
  {
    if !w.rolling then s.(tracked := s.tracked + {o})
    else
      var e := EvictUntil(s.ix, KeepIncomplete(w, o, 0, None), removals);
      s.(ix := e.ix, tracked := if e.space == Fits then s.tracked + {o} else s.tracked)
  }

  function Begin(w: World, o: Object, offset: int, length: nat): Reader
  {
    var r := Reader(o, offset, length, [], Ready);
    if offset < 0 then r.(phase := Finished(Error))
    else if length == 0 then r.(phase := Finished(Complete))
    else if offset >= Size(w, o) then r.(phase := Finished(EndOfFile))
    else if w.rolling && Size(w, o) <= w.chunkBytes then r.(phase := Direct)
    else r
  }

  // The provider delivers the whole request or an error, and EOF exactly when it cut the request short.
  predicate HonestReply(w: World, r: Reader, count: nat, outcome: Outcome)
  {
    && 0 <= r.offset && count <= Wanted(w, r)
    && (outcome != Error ==> count == Wanted(w, r) && (outcome == EndOfFile <==> CutShort(w, r)))
  }

  ghost function AttemptStep(w: World, s: System, id: nat, disk: Disk): System
    requires ValidWorld(w) && id in s.readers && IsChunk(w, KeyOf(w, s.readers[id]))
  {
    var r := s.readers[id];
    var k := KeyOf(w, r);
    var a := AcquirePass(w, s.ix, k, |s.calls|, disk);
    var s' := s.(ix := a.ix);
    match a.pass
    case Hit => Put(s', id, r.(phase := Holding(k)))
    case Wait(c) => Put(s', id, r.(phase := AwaitCall(c, false)))
    case Started =>
      Put(s'.(calls := s.calls + [Call(k, Foreground, None)]), id, r.(phase := AwaitCall(|s.calls|, true)))
    case Full => Put(s', id, r.(phase := AwaitSpace(s.epoch)))
    case Refused => Put(s', id, r.(phase := Finished(Error)))
  }

  // What a reader does with the result of the fetch it waited for.
  function AfterCall(call: Call, own: bool): Phase
    requires call.ended.Some?
  {
    if call.ended.value == NoError then Ready
    else if !own && call.kind != Foreground && call.ended.value == Canceled then Ready
    else Finished(Error)
  }

  ghost function CopyStep(w: World, s: System, id: nat, count: nat, ok: bool): System
    requires ValidWorld(w) && id in s.readers && s.readers[id].phase.Holding?
    requires s.readers[id].phase.key in s.ix.chunks
    requires Within(w, s.readers[id]) + count <= |s.ix.chunks[s.readers[id].phase.key].bytes|
  {
    var r := s.readers[id];
    var from := Within(w, r);
    Put(s, id, r.(got := r.got + s.ix.chunks[r.phase.key].bytes[from..from + count], phase := Copied(r.phase.key, ok)))
  }

  ghost function BackgroundStep(w: World, s: System, k: Key, kind: Kind, spared: Option<Key>, disk: Disk): System
    requires IsChunk(w, k)
  {
    var r := TryReserveBackground(w, s.ix, k, kind, spared, |s.calls|, disk);
    if r.grant != Granted then s.(ix := r.ix)
    else s.(ix := r.ix, calls := s.calls + [Call(k, kind, None)], tracked := s.tracked + {k.obj})
  }

  ghost function FinishStep(w: World, s: System, k: Key, stored: bool, err: FetchError): System
    requires ValidWorld(w) && k in s.ix.inflight && IsChunk(w, k) && s.ix.inflight[k].call < |s.calls|
  {
    var c := s.ix.inflight[k].call;
    s.(ix := EndFetch(s.ix, k, if stored then Some(Slice(w, k)) else None),
       calls := s.calls[c := s.calls[c].(ended := Some(err))],
       epoch := s.epoch + 1,
       loose := if stored then s.loose - {k} else s.loose)
  }

  // When an event may happen.
  ghost predicate Enabled(w: World, s: System, e: Event)
    requires ValidWorld(w)
  {
    match e
    case Open(_, _) => true
    case StartRead(id, o, _, _) => id !in s.readers && o in s.tracked
    case DirectRead(id, count, outcome) =>
      id in s.readers && s.readers[id].phase == Direct && HonestReply(w, s.readers[id], count, outcome)
    case Attempt(id, _) =>
      && id in s.readers && s.readers[id].phase == Ready && Unfinished(w, s.readers[id])
      && IsChunk(w, KeyOf(w, s.readers[id]))
    case Resume(id) =>
      && id in s.readers
      && (s.readers[id].phase.AwaitCall? ==>
            s.readers[id].phase.call < |s.calls| && s.calls[s.readers[id].phase.call].ended.Some?)
      && (s.readers[id].phase.AwaitSpace? ==> s.readers[id].phase.epoch < s.epoch)
      && (s.readers[id].phase.AwaitCall? || s.readers[id].phase.AwaitSpace?)
    case Copy(id, count, ok) =>
      && id in s.readers && s.readers[id].phase.Holding? && s.readers[id].phase.key in s.ix.chunks
      && Within(w, s.readers[id]) + count <= |s.ix.chunks[s.readers[id].phase.key].bytes|
      && count <= CopyLength(w, s.readers[id]) && (ok ==> count == CopyLength(w, s.readers[id]))
    case Release(id) =>
      && id in s.readers && s.readers[id].phase.Copied?
      && s.readers[id].phase.key in s.ix.chunks && s.ix.chunks[s.readers[id].phase.key].pins > 0
    case Return(id) => id in s.readers && s.readers[id].phase == Ready && !Unfinished(w, s.readers[id])
    case Cancel(id) =>
      && id in s.readers
      && (var p := s.readers[id].phase;
          p == Direct || p.AwaitCall? || p.AwaitSpace? || (p == Ready && Unfinished(w, s.readers[id])))
    case Background(k, kind, _, _) =>
      kind != Foreground && IsChunk(w, k) && k !in s.ix.chunks && k !in s.ix.inflight
    case Finish(k, stored, err) =>
      && k in s.ix.inflight && IsChunk(w, k) && s.ix.inflight[k].call < |s.calls|
      && (!stored ==> err != NoError)
    // A fetch renames its file into place before it reports; after a later error it removes it, if it can.
    case Land(k) => k in s.ix.inflight
    case Sweep(k) => k in s.loose
  }

  ghost function Step(w: World, s: System, e: Event): System
    requires ValidWorld(w) && Enabled(w, s, e)
  {
    match e
    case Open(o, removals) => OpenStep(w, s, o, removals)
    case StartRead(id, o, offset, length) => Put(s, id, Begin(w, o, offset, length))
    case DirectRead(id, count, outcome) => Put(s, id, DirectResult(w, s.readers[id], count, outcome))
    case Attempt(id, disk) => AttemptStep(w, s, id, disk)
    case Resume(id) =>
      var r := s.readers[id];
      Put(s, id, r.(phase := if r.phase.AwaitCall? then AfterCall(s.calls[r.phase.call], r.phase.own) else Ready))
    case Copy(id, count, ok) => CopyStep(w, s, id, count, ok)
    case Release(id) =>
      var r := s.readers[id];
      Put(s.(ix := Unpin(s.ix, r.phase.key), epoch := s.epoch + 1), id,
          r.(phase := if r.phase.ok then Ready else Finished(Error)))
    case Return(id) =>
      var r := s.readers[id];
      Put(s, id, r.(phase := Finished(if CutShort(w, r) then EndOfFile else Complete)))
    case Cancel(id) => Put(s, id, s.readers[id].(phase := Finished(Error)))
    case Background(k, kind, spared, disk) => BackgroundStep(w, s, k, kind, spared, disk)
    case Finish(k, stored, err) => FinishStep(w, s, k, stored, err)
    case Land(k) => s.(loose := s.loose + {k})
    case Sweep(k) => s.(loose := s.loose - {k})
  }

  ghost function DirectResult(w: World, r: Reader, count: nat, outcome: Outcome): Reader
    requires HonestReply(w, r, count, outcome)
  {
    r.(got := w.remote(r.obj)[r.offset..r.offset + count], phase := Finished(outcome))
  }

  // Run a schedule; None when some event was not possible.
  ghost function Exec(w: World, s: System, events: seq<Event>): Option<System>
    requires ValidWorld(w)
    decreases |events|
  {
    if events == [] then Some(s)
    else if !Enabled(w, s, events[0]) then None
    else Exec(w, Step(w, s, events[0]), events[1..])
  }

  // A pool just recovered from its directory: no readers, no fetches.
  ghost predicate Initial(w: World, s: System)
    requires ValidWorld(w)
  {
    && (exists listing, removals :: OwnDirectory(w, listing) && Recover(w, listing, removals) == Some(s.ix))
    && s.calls == [] && s.epoch == 0 && s.readers == map[] && s.tracked == {} && s.loose == {}
  }

  ghost predicate Reachable(w: World, s: System)
    requires ValidWorld(w)
  {
    exists s0, events :: Initial(w, s0) && Exec(w, s0, events) == Some(s)
  }

  /******* The invariant *******/

  predicate Holds(r: Reader, k: Key)
  {
    (r.phase.Holding? || r.phase.Copied?) && r.phase.key == k
  }

  ghost function Holders(readers: map<nat, Reader>, k: Key): set<nat>
  {
    set id | id in readers && Holds(readers[id], k)
  }

  // A chunk's pin count is the number of readers holding it.
  ghost predicate PinsOk(s: System)
  {
    && (forall k | k in s.ix.chunks :: s.ix.chunks[k].pins == |Holders(s.readers, k)|)
    && (forall id | id in s.readers && (s.readers[id].phase.Holding? || s.readers[id].phase.Copied?) ::
          s.readers[id].phase.key in s.ix.chunks)
  }

  // Running calls and in-flight chunks correspond one to one.
  ghost predicate CallsOk(s: System)
  {
    && (forall k | k in s.ix.inflight ::
          var c := s.ix.inflight[k].call; c < |s.calls| && s.calls[c] == Call(k, s.ix.inflight[k].kind, None))
    && (forall c | 0 <= c < |s.calls| && s.calls[c].ended.None? ::
          s.calls[c].key in s.ix.inflight && s.ix.inflight[s.calls[c].key].call == c)
    && (forall id | id in s.readers && s.readers[id].phase.AwaitCall? :: s.readers[id].phase.call < |s.calls|)
  }

  // The bytes written so far are the object's bytes from the offset on.
  ghost predicate Prefix(w: World, r: Reader)
  {
    && 0 <= r.offset
    && r.offset + |r.got| <= Size(w, r.obj)
    && r.got == w.remote(r.obj)[r.offset..r.offset + |r.got|]
    && |r.got| <= r.length
  }

  // What a caller of ReadAt may rely on.
  ghost predicate Delivered(w: World, r: Reader, outcome: Outcome)
  {
    && (r.got != [] ==> Prefix(w, r))
    && (r.offset < 0 ==> outcome == Error)
    && (outcome == Complete ==> |r.got| == r.length)
    && (outcome == EndOfFile ==> |r.got| < r.length && |r.got| == Max(0, Size(w, r.obj) - r.offset))
  }

  ghost predicate ReaderOk(w: World, r: Reader)
    requires ValidWorld(w)
  {
    match r.phase
    case Finished(outcome) => Delivered(w, r, outcome)
    case Direct => Prefix(w, r) && r.got == [] && r.offset < Size(w, r.obj)
    case Ready => Prefix(w, r) && Cached(w, r)
    case AwaitCall(_, _) => Prefix(w, r) && Cached(w, r) && Unfinished(w, r)
    case AwaitSpace(_) => Prefix(w, r) && Cached(w, r) && Unfinished(w, r)
    case Holding(k) => Prefix(w, r) && Cached(w, r) && Unfinished(w, r) && k == KeyOf(w, r)
    case Copied(_, _) => Prefix(w, r) && Cached(w, r)
  }

  ghost predicate Cached(w: World, r: Reader)
  {
    r.offset < Size(w, r.obj) && (w.rolling ==> Size(w, r.obj) > w.chunkBytes)
  }

  ghost predicate ReadersOk(w: World, s: System)
    requires ValidWorld(w)
  {
    forall id | id in s.readers :: ReaderOk(w, s.readers[id])
  }

  // A waiter nobody has signalled since it looked is waiting for a pin or a fetch.
  ghost predicate WaitersOk(s: System)
  {
    forall id | id in s.readers && s.readers[id].phase.AwaitSpace? ::
      s.readers[id].phase.epoch <= s.epoch && (s.readers[id].phase.epoch == s.epoch ==> Busy(s.ix))
  }

  // Opened and reserved objects are never complete on disk.
  ghost predicate NeverComplete(w: World, s: System)
  {
    w.rolling ==> forall o | o in s.tracked :: Usage(s.ix, o) <= Size(w, o) - 1
  }

  ghost predicate Inv(w: World, s: System)
    requires ValidWorld(w)
  {
    Sound(w, s.ix) && PinsOk(s) && CallsOk(s) && ReadersOk(w, s) && WaitersOk(s) && NeverComplete(w, s)
  }
}

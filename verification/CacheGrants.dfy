/** When the cache does give room: to prefetches, to opened objects, and to what it finds at start-up. */
module CacheGrants {
  import opened Options
  import opened CacheModel
  import opened CacheIndexProofs
  import opened CacheRecovery
  import opened CacheRuns

  // A prefetch that fits beside a whole foreground chunk starts at once and evicts nothing; a persistent pool always starts it.
  lemma FittingPrefetchStarts(w: World, ix: Index, k: Key, kind: Kind, spared: Option<Key>, call: nat, disk: Disk)
    requires ValidWorld(w) && IsChunk(w, k)
    requires w.rolling ==> Usage(ix, k.obj) + ChunkSize(w, k) < Size(w, k.obj) &&
                           ix.current + ix.reserved + ChunkSize(w, k) + w.chunkBytes <= w.maxBytes
    ensures TryReserveBackground(w, ix, k, kind, spared, call, disk) ==
            Reservation(Reserve(ix, k, Fetch(ChunkSize(w, k), kind, call)), Granted)
  {
    hide Usage;
  }

  // Read-ahead in an idle pool with working deletions gets room for its chunk and a foreground one; a next-episode
  // prefetch gets it only if no other object has to make way.
  lemma IdlePrefetch(w: World, ix: Index, k: Key, kind: Kind, call: nat, disk: Disk)
    requires ValidWorld(w) && w.rolling && Sound(w, ix) && IsChunk(w, k) && Size(w, k.obj) > w.chunkBytes && !Busy(ix)
    requires ChunkSize(w, k) + w.chunkBytes <= w.maxBytes && disk.forObject >= |ix.chunks| && disk.forQuota >= |ix.chunks|
    ensures var own := EvictUntil(ix, KeepIncomplete(w, k.obj, ChunkSize(w, k), None), disk.forObject).ix;
            TryReserveBackground(w, ix, k, kind, None, call, disk).grant == Granted <==>
            kind != NextEpisode || own.current + own.reserved + ChunkSize(w, k) + w.chunkBytes <= w.maxBytes
  {
    hide EvictUntil, Accounted, Stamped, Faithful, WithinQuota, Busy, Usage;
    var d1 := KeepIncomplete(w, k.obj, ChunkSize(w, k), None);
    var d2 := ForQuota(w.maxBytes - w.chunkBytes, ChunkSize(w, k), None);
    var first := EvictUntil(ix, d1, disk.forObject);
    EvictUntilVerdict(ix, d1, disk.forObject);
    IdleStays(ix, d1, disk.forObject);
    if first.space == NoVictim { GaveUpBusy(w, ix, d1, disk.forObject); }
    EvictUntilSound(w, ix, d1, disk.forObject);
    FewerChunks(ix, d1, disk.forObject);
    EvictUntilVerdict(first.ix, d2, disk.forQuota);
    IdleStays(first.ix, d2, disk.forQuota);
    if EvictUntil(first.ix, d2, disk.forQuota).space == NoVictim { GaveUpBusy(w, first.ix, d2, disk.forQuota); }
  }

  // Opening: always in a persistent pool; in an idle rolling pool with working deletions, every object that has bytes.
  lemma OpenSucceeds(w: World, s: System, o: Object, removals: nat)
    requires ValidWorld(w) && Inv(w, s)
    requires w.rolling ==> Size(w, o) > 0 && !Busy(s.ix) && removals >= |s.ix.chunks|
    ensures o in Step(w, s, Open(o, removals)).tracked
  {
    hide EvictUntil, Accounted, Stamped, Faithful, WithinQuota, Busy, Usage, PinsOk, CallsOk, ReadersOk, WaitersOk, NeverComplete;
    if w.rolling {
      var d := KeepIncomplete(w, o, 0, None);
      EvictUntilVerdict(s.ix, d, removals);
      IdleStays(s.ix, d, removals);
      if EvictUntil(s.ix, d, removals).space == NoVictim { GaveUpBusy(w, s.ix, d, removals); }
    }
  }

  // An object without bytes cannot be opened in a rolling pool.
  lemma EmptyNeverOpens(w: World, s: System, o: Object, removals: nat)
    requires ValidWorld(w) && w.rolling && Size(w, o) == 0 && o !in s.tracked
    ensures o !in Step(w, s, Open(o, removals)).tracked
  {
    hide EvictUntil, Usage;
    EvictUntilVerdict(s.ix, KeepIncomplete(w, o, 0, None), removals);
  }

  /******* Start-up *******/

  // What this cache wrote it accepts again, its full chunks included.
  lemma OwnFilesAcceptable(w: World, listing: seq<Entry>, f: File)
    requires ValidWorld(w) && OwnDirectory(w, listing) && Saved(f) in listing
    ensures 0 < |f.bytes| <= w.chunkBytes && Acceptable(w, Saved(f))
  {
    assert FaithfulFile(w, f);
    FileLength(w, f);
  }

  // Start-up succeeds on the cache's own directory whenever every temporary and every trimmed file can be deleted.
  lemma OwnDirectoryRecovers(w: World, listing: seq<Entry>, removals: nat)
    requires ValidWorld(w) && OwnDirectory(w, listing) && removals >= |Loaded(Ordered(listing)).chunks|
    requires forall e | e in listing :: !e.Unexpected? && (e.Temporary? ==> e.deleted)
    ensures Recover(w, listing, removals).Some?
  {
    hide OwnDirectory, Recover, Loaded, Ordered;
    forall e | e in listing ensures Acceptable(w, e) {
      if e.Saved? { OwnFilesAcceptable(w, listing, e.file); }
    }
    RecoverSucceeds(w, listing, removals);
  }

  // It loses nothing that fits: every saved file is in the index with its bytes, unless the quota is exceeded.
  lemma RecoverKeepsWhatFits(w: World, listing: seq<Entry>, removals: nat, f: File)
    requires ValidWorld(w) && OwnDirectory(w, listing) && Saved(f) in listing && Recover(w, listing, removals).Some?
    requires w.rolling ==> Loaded(Ordered(listing)).current <= w.maxBytes
    ensures var ix := Recover(w, listing, removals).value; f.key in ix.chunks && ix.chunks[f.key].bytes == f.bytes
  {
    hide OwnDirectory, Loaded, Ordered;
    OrderedDistinct(w, listing);
    LoadedHolds(Ordered(listing));
    var order := Ordered(listing);
    var i :| 0 <= i < |order| && order[i] == f;
    EvictUntilStops(Loaded(order), ForQuota(w.maxBytes, 0, None), removals);
  }
}

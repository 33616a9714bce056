/**
 Rebuilding the index from the cache directory at start-up, and why an object
 that is kept short of its size always misses a whole chunk.
 */
module CacheRecovery {
  import opened Options
  import opened Bytes
  import opened Sums
  import opened Sorting
  import opened CacheModel
  import opened CacheIndexProofs

  /******* A chunk is always missing *******/

  // The first n chunks of an object with their lengths.
  ghost function FirstChunks(w: World, o: Object, n: nat): map<Key, nat>
    requires ValidWorld(w) && (n > 0 ==> (n - 1) * w.chunkBytes < Size(w, o))
    decreases n
  {
    if n == 0 then map[]
    else
      assert n > 1 ==> (n - 2) * w.chunkBytes < (n - 1) * w.chunkBytes;
      FirstChunks(w, o, n - 1)[Key(o, n - 1) := ChunkSize(w, Key(o, n - 1))]
  }

  lemma {:induction false} FirstChunksAre(w: World, o: Object, n: nat)
    requires ValidWorld(w) && (n > 0 ==> (n - 1) * w.chunkBytes < Size(w, o))
    ensures forall k :: k in FirstChunks(w, o, n) <==> k.obj == o && 0 <= k.index < n
    ensures forall k :: k in FirstChunks(w, o, n) ==> FirstChunks(w, o, n)[k] == ChunkSize(w, k)
    decreases n
  {
    if n > 0 {
      assert n > 1 ==> (n - 2) * w.chunkBytes < (n - 1) * w.chunkBytes;
      FirstChunksAre(w, o, n - 1);
    }
  }

  // Chunk lengths add up to the object's size.
  lemma {:induction false} FirstChunksSum(w: World, o: Object, n: nat)
    requires ValidWorld(w) && (n > 0 ==> (n - 1) * w.chunkBytes < Size(w, o))
    ensures Sum(FirstChunks(w, o, n)) == (if n * w.chunkBytes < Size(w, o) then n * w.chunkBytes else Size(w, o))
    decreases n
  {
    if n > 0 {
      assert n > 1 ==> (n - 2) * w.chunkBytes < (n - 1) * w.chunkBytes;
      FirstChunksSum(w, o, n - 1);
      FirstChunksAre(w, o, n - 1);
      assert (n - 1) * w.chunkBytes + w.chunkBytes == n * w.chunkBytes;
      SumPut(FirstChunks(w, o, n - 1), Key(o, n - 1), ChunkSize(w, Key(o, n - 1)));
    }
  }

  ghost predicate Present(ix: Index, k: Key) { k in ix.chunks || k in ix.inflight }

  lemma ChunkCount(size: nat, chunkBytes: int) returns (n: nat)
    requires size > 0 && chunkBytes > 0
    ensures n > 0 && (n - 1) * chunkBytes < size <= n * chunkBytes
  {
    n := 1;
    while n * chunkBytes < size
      invariant n > 0 && (n - 1) * chunkBytes < size
      decreases size - n * chunkBytes
    {
      assert (n + 1) * chunkBytes == n * chunkBytes + chunkBytes;
      n := n + 1;
    }
  }

  // With every chunk present an object's usage reaches its size.
  lemma AllPresentMeansFull(w: World, ix: Index, o: Object, n: nat)
    requires ValidWorld(w) && Sound(w, ix)
    requires n > 0 && (n - 1) * w.chunkBytes < Size(w, o) <= n * w.chunkBytes
    requires forall i :: 0 <= i < n ==> Present(ix, Key(o, i))
    ensures Usage(ix, o) >= Size(w, o)
  {
    hide Sum, Stamped, WithinQuota, FirstChunks, Slice;
    var cached, fetching := Of(Sizes(ix.chunks), o), Of(Expected(ix.inflight), o);
    FirstChunksSum(w, o, n);
    SumUnion(cached, fetching);
    FirstChunksAre(w, o, n);
    forall k | k in FirstChunks(w, o, n)
      ensures k in cached + fetching && (cached + fetching)[k] == FirstChunks(w, o, n)[k]
    {
      assert Present(ix, Key(o, k.index)) && k == Key(o, k.index);
    }
    SumSubset(FirstChunks(w, o, n), cached + fetching);
  }

  lemma Scale(i: nat, j: nat, c: nat)
    requires i <= j
    ensures i * c <= j * c
  {
  }

  // An object kept below its size misses at least one whole chunk.
  lemma SomeChunkMissing(w: World, ix: Index, o: Object)
    requires ValidWorld(w) && Sound(w, ix) && Usage(ix, o) <= Size(w, o) - 1
    ensures exists i :: 0 <= i && IsChunk(w, Key(o, i)) && !Present(ix, Key(o, i))
  {
    hide Accounted, Stamped, Faithful, WithinQuota, Usage;
    var n := ChunkCount(Size(w, o), w.chunkBytes);
    if forall i :: 0 <= i < n ==> Present(ix, Key(o, i)) {
      AllPresentMeansFull(w, ix, o, n);
    } else {
      var i :| 0 <= i < n && !Present(ix, Key(o, i));
      Scale(i, n - 1, w.chunkBytes);
      assert IsChunk(w, Key(o, i));
    }
  }

  /******* Recovery *******/

  datatype File = File(key: Key, path: string, modified: int, bytes: seq<Byte>)

  // One directory entry below the cache root; an abandoned temporary must be deleted.
  datatype Entry = Temporary(deleted: bool) | Unexpected | Saved(file: File)

  predicate Earlier(a: File, b: File)
  {
    if a.modified == b.modified then StringLess(a.path, b.path) else a.modified < b.modified
  }

  lemma EarlierOrder()
    ensures WeakOrder(Earlier)
  {
    StringOrder();
  }

  predicate Acceptable(w: World, e: Entry)
  {
    match e
    case Temporary(deleted) => deleted
    case Unexpected => false
    case Saved(file) => 0 < |file.bytes| <= w.chunkBytes
  }

  function SavedFiles(listing: seq<Entry>): (r: seq<File>)
    ensures forall f :: f in r <==> Saved(f) in listing
  {
    if listing == [] then []
    else (if listing[0].Saved? then [listing[0].file] else []) + SavedFiles(listing[1..])
  }

  // Number the files in order, oldest first.
  function Loaded(files: seq<File>): (ix: Index)
    ensures ix.tick == |files|
    ensures ix.inflight == map[] && ix.reserved == 0
  {
    if files == [] then Index(map[], map[], 0, 0, 0, 0)
    else Load(Loaded(files[..|files| - 1]), files[|files| - 1])
  }

  function Load(ix: Index, f: File): Index
  {
    ix.(tick := ix.tick + 1,
        current := ix.current + |f.bytes|,
        chunks := ix.chunks[f.key := Chunk(|f.bytes|, 0, ix.tick + 1, f.bytes)])
  }

  // The recovered files, oldest first.
  function Ordered(listing: seq<Entry>): seq<File> { Sort(SavedFiles(listing), Earlier) }

  ghost function Recover(w: World, listing: seq<Entry>, removals: nat): Option<Index>
  {
    if exists e :: e in listing && !Acceptable(w, e) then None
    else
      var ix := Loaded(Ordered(listing));
      if !w.rolling then Some(ix.(highWater := ix.current))
      else
        var trimmed := EvictUntil(ix, ForQuota(w.maxBytes, 0, None), removals);
        if trimmed.space != Fits then None else Some(trimmed.ix.(highWater := trimmed.ix.current))
  }

  ghost predicate DistinctKeys(files: seq<File>)
  {
    forall i, j | 0 <= i < j < |files| :: files[i].key != files[j].key
  }

  // The file holds the bytes this cache wrote for its chunk.
  ghost predicate FaithfulFile(w: World, f: File)
    requires ValidWorld(w)
  {
    IsChunk(w, f.key) && f.bytes == Slice(w, f.key)
  }

  // What the directory holds: each chunk once, written by this cache with the same chunk size.
  ghost predicate OwnDirectory(w: World, listing: seq<Entry>)
    requires ValidWorld(w)
  {
    DistinctKeys(SavedFiles(listing)) && forall f | Saved(f) in listing :: FaithfulFile(w, f)
  }

  lemma {:induction false} LoadedHolds(files: seq<File>)
    requires DistinctKeys(files)
    ensures forall k :: k in Loaded(files).chunks ==> exists i :: 0 <= i < |files| && files[i].key == k
    ensures forall i :: 0 <= i < |files| ==>
              files[i].key in Loaded(files).chunks &&
              Loaded(files).chunks[files[i].key] == Chunk(|files[i].bytes|, 0, i + 1, files[i].bytes)
  {
    if files != [] {
      var rest, last := files[..|files| - 1], files[|files| - 1];
      LoadedHolds(rest);
      forall k | k in Loaded(files).chunks ensures exists i :: 0 <= i < |files| && files[i].key == k {
        if k != last.key {
          assert k in Loaded(rest).chunks;
          var i :| 0 <= i < |rest| && rest[i].key == k;
          assert files[i].key == k;
        } else {
          assert files[|files| - 1].key == k;
        }
      }
    }
  }

  lemma {:induction false} LoadedTidy(w: World, files: seq<File>)
    requires ValidWorld(w) && DistinctKeys(files) && forall f | f in files :: FaithfulFile(w, f)
    ensures Tidy(w, Loaded(files))
  {
    hide Tidy, FaithfulFile;
    if files == [] {
      LoadedEmpty(w);
    } else {
      var rest, last := files[..|files| - 1], files[|files| - 1];
      LoadedTidy(w, rest);
      LoadedHolds(rest);
      LoadTidy(w, Loaded(rest), last);
    }
  }

  lemma LoadedEmpty(w: World)
    requires ValidWorld(w)
    ensures Tidy(w, Loaded([]))
  {
    assert Sizes(Loaded([]).chunks) == map[] && Expected(Loaded([]).inflight) == map[];
  }

  lemma LoadTidy(w: World, ix: Index, f: File)
    requires ValidWorld(w) && Tidy(w, ix) && f.key !in ix.chunks && FaithfulFile(w, f) && ix.inflight == map[]
    ensures Tidy(w, Load(ix, f))
  {
    hide Accounted, Stamped, Faithful;
    LoadAccounted(ix, f);
    LoadStamped(ix, f);
    LoadFaithful(w, ix, f);
  }

  lemma LoadAccounted(ix: Index, f: File)
    requires Accounted(ix) && f.key !in ix.chunks && ix.inflight == map[]
    ensures Accounted(Load(ix, f))
  {
    assert Sizes(Load(ix, f).chunks) == Sizes(ix.chunks)[f.key := |f.bytes|];
    SumPut(Sizes(ix.chunks), f.key, |f.bytes|);
  }

  lemma LoadStamped(ix: Index, f: File)
    requires Stamped(ix)
    ensures Stamped(Load(ix, f))
  {
  }

  lemma LoadFaithful(w: World, ix: Index, f: File)
    requires ValidWorld(w) && Faithful(w, ix) && FaithfulFile(w, f)
    ensures Faithful(w, Load(ix, f))
  {
    hide Slice, IsChunk;
    assert |f.bytes| == ChunkSize(w, f.key) by { FileLength(w, f); }
  }

  lemma FileLength(w: World, f: File)
    requires ValidWorld(w) && FaithfulFile(w, f)
    ensures |f.bytes| == ChunkSize(w, f.key)
  {
    ChunkInRange(w, f.key);
  }

  lemma OrderedDistinct(w: World, listing: seq<Entry>)
    requires ValidWorld(w) && OwnDirectory(w, listing)
    ensures DistinctKeys(Ordered(listing))
    ensures forall f :: f in Ordered(listing) <==> Saved(f) in listing
  {
    var files, order := SavedFiles(listing), Ordered(listing);
    SortDistinct(files, Earlier);
    SortMembers(files, Earlier);
    forall i, j | 0 <= i < j < |order| ensures order[i].key != order[j].key {
      assert order[i] in files && order[j] in files;
    }
  }

  // The index before the quota is enforced.
  lemma LoadedOrderedTidy(w: World, listing: seq<Entry>)
    requires ValidWorld(w) && OwnDirectory(w, listing)
    ensures Tidy(w, Loaded(Ordered(listing)))
    ensures forall k | k in Loaded(Ordered(listing)).chunks :: Loaded(Ordered(listing)).chunks[k].pins == 0
  {
    hide Tidy, FaithfulFile, Ordered;
    OrderedDistinct(w, listing);
    LoadedTidy(w, Ordered(listing));
    LoadedHolds(Ordered(listing));
  }

  // Resetting the high-water mark to the bytes in use.
  lemma ResetHighWater(w: World, ix: Index)
    requires ValidWorld(w) && Tidy(w, ix) && ix.inflight == map[] && ix.reserved == 0
    requires w.rolling ==> ix.current <= w.maxBytes
    ensures Sound(w, ix.(highWater := ix.current))
  {
  }

  // Recovery ends with a sound index inside the quota, nothing pinned and nothing in flight.
  lemma RecoverSound(w: World, listing: seq<Entry>, removals: nat)
    requires ValidWorld(w) && OwnDirectory(w, listing)
    ensures var r := Recover(w, listing, removals);
            r.Some? ==> Sound(w, r.value) && !Busy(r.value)
  {
    hide Tidy, OwnDirectory, Ordered, EvictUntil, Loaded, Sound;
    var ix, d := Loaded(Ordered(listing)), ForQuota(w.maxBytes, 0, None);
    LoadedOrderedTidy(w, listing);
    EvictUntilTidy(w, ix, d, removals);
    EvictUntilOnly(ix, d, removals);
    EvictUntilVerdict(ix, d, removals);
    var r := Recover(w, listing, removals);
    if r.Some? {
      ResetHighWater(w, if w.rolling then EvictUntil(ix, d, removals).ix else ix);
    }
  }

  // Start-up fails only on an entry it does not know or a file it cannot delete.
  lemma RecoverSucceeds(w: World, listing: seq<Entry>, removals: nat)
    requires ValidWorld(w) && OwnDirectory(w, listing)
    requires forall e | e in listing :: Acceptable(w, e)
    requires removals >= |Loaded(Ordered(listing)).chunks|
    ensures Recover(w, listing, removals).Some?
  {
    hide Tidy, OwnDirectory, Ordered, EvictUntil, Loaded, Eligible;
    var ix, d := Loaded(Ordered(listing)), ForQuota(w.maxBytes, 0, None);
    LoadedOrderedTidy(w, listing);
    EvictUntilVerdict(ix, d, removals);
    if w.rolling && EvictUntil(ix, d, removals).space == NoVictim {
      EvictUntilTidy(w, ix, d, removals);
      EvictUntilOnly(ix, d, removals);
      TrimmedAll(w, EvictUntil(ix, d, removals).ix, d);
    }
  }

  lemma TrimmedAll(w: World, ix: Index, d: Demand)
    requires ValidWorld(w) && Tidy(w, ix) && ix.inflight == map[] && d == ForQuota(w.maxBytes, 0, None) && w.rolling
    requires forall k | k in ix.chunks :: ix.chunks[k].pins == 0
    requires forall k :: !Eligible(ix, d, k)
    ensures Fitting(ix, d)
  {
    forall k ensures k !in ix.chunks { assert !Eligible(ix, d, k); }
    assert Sizes(ix.chunks) == map[] && Expected(ix.inflight) == map[];
  }

  // What the quota drops at start-up is never newer than what it keeps.
  lemma RecoverKeepsNewest(w: World, listing: seq<Entry>, removals: nat, dropped: File, kept: File)
    requires ValidWorld(w) && w.rolling && OwnDirectory(w, listing)
    requires Saved(dropped) in listing && Saved(kept) in listing
    requires var r := Recover(w, listing, removals);
             r.Some? && dropped.key !in r.value.chunks && kept.key in r.value.chunks
    ensures !Earlier(kept, dropped)
  {
    hide Tidy, OwnDirectory, EvictUntil, Loaded;
    var order := Ordered(listing);
    var ix, d := Loaded(order), ForQuota(w.maxBytes, 0, None);
    OrderedDistinct(w, listing);
    var i :| 0 <= i < |order| && order[i] == dropped;
    var j :| 0 <= j < |order| && order[j] == kept;
    LoadedHolds(order);
    LoadedOrderedTidy(w, listing);
    EvictionPolicy(w, ix, d, removals);
    assert Eligible(ix, d, kept.key);
    assert i < j;
    EarlierOrder();
    SortSorted(SavedFiles(listing), Earlier);
  }
}

/**
 The setup repository: ordered disk operations, any of which may fail. Every
 intermediate disk is recorded as a point where the process may be killed or
 power may be lost.
 */
module SetupRepository {
  import opened Options
  import opened SetupDisk

  datatype Reply = Okay | Rejected | NotCommitted | NotSynced | CleanupDeferred

  // Losing power at any of the points leaves one of the values.
  ghost predicate AllSafe(points: set<Disk>, values: set<Loaded>)
  {
    forall d | d in points :: Safe(d, values)
  }

  // Killing the process at any of the points leaves one of the values.
  ghost predicate AllLoad(points: set<Disk>, values: set<Loaded>)
  {
    forall d | d in points :: LoadManifest(d) in values
  }

  // Every point since the earlier ones spares the generations of K on disk d.
  ghost predicate Trail(d: Disk, earlier: set<Disk>, points: set<Disk>, K: string -> bool)
  {
    forall x | x in points && x !in earlier :: Spared(d, x, K)
  }

  // A disk as it should be: what it loads, and, where power losses were harmless, what they may leave.
  ghost predicate Fine(d: Disk, loads: set<Loaded>, calm: bool, values: set<Loaded>)
  {
    LoadManifest(d) in loads && (calm ==> Safe(d, values))
  }

  ghost predicate AllFine(points: set<Disk>, loads: set<Loaded>, calm: bool, values: set<Loaded>)
  {
    AllLoad(points, loads) && (calm ==> AllSafe(points, values))
  }

  lemma AddPoint(points: set<Disk>, d: Disk, loads: set<Loaded>, calm: bool, values: set<Loaded>, all: set<Loaded>)
    requires AllFine(points, loads, calm, all) && Fine(d, loads, calm, values) && values <= all
    ensures AllFine(points + {d}, loads, calm, all)
  {
    hide Safe, LoadManifest;
    if calm { SaferWithMore(d, values, all); }
  }

  // Work that spares every generation the link may name keeps the disk, and every point on the way, fine.
  lemma TrailFine(d: Disk, earlier: set<Disk>, points: set<Disk>, d': Disk, K: string -> bool, loads: set<Loaded>, calm: bool, values: set<Loaded>, all: set<Loaded>)
    requires Spared(d, d', K) && Trail(d, earlier, points, K) && forall p | p in Possible(d.current) && p.Some? :: K(p.value)
    requires Fine(d, loads, calm, values) && AllFine(earlier, loads, calm, all) && values <= all
    ensures AllFine(points, loads, calm, all) && Fine(d', loads, calm, values) && LoadManifest(d') == LoadManifest(d)
  {
    hide Safe, LoadManifest, Spared;
    forall x | x in points && x !in earlier ensures Fine(x, loads, calm, all) { SparedFine(d, x, K, loads, calm, values, all); }
    SparedFine(d, d', K, loads, calm, values, all);
  }

  lemma SparedFine(d: Disk, x: Disk, K: string -> bool, loads: set<Loaded>, calm: bool, values: set<Loaded>, all: set<Loaded>)
    requires Spared(d, x, K) && Fine(d, loads, calm, values) && values <= all
    requires forall p | p in Possible(d.current) && p.Some? :: K(p.value)
    ensures Fine(x, loads, calm, values) && Fine(x, loads, calm, all) && LoadManifest(x) == LoadManifest(d)
  {
    hide Safe, LoadManifest, Spared;
    assert d.current.now in Possible(d.current);
    SparedLoads(d, x, K);
    if calm {
      SparedIsSafe(d, x, K, values);
      SaferWithMore(x, values, all);
    }
  }

  // d' is d after a complete cleanup that kept one generation.
  ghost predicate Cleaned(d: Disk, d': Disk, keep: Option<string>)
  {
    d'.current == d.current && forall g :: if Some(g) == keep then Same(d, d', g) else Get(d', g).present == Cell(false, {})
  }

  // No other generation is listed.
  ghost predicate Alone(d: Disk, keep: Option<string>) { forall g | Some(g) != keep :: !Get(d, g).present.now }

  // At most one call fails.
  ghost predicate OneFault(faults: nat -> bool) { forall j, k | faults(j) && faults(k) :: j == k }

  function But(g: string): string -> bool { h => h != g }

  function Only(keep: Option<string>): string -> bool { h => Some(h) == keep }

  class Repository {
    // Which of the numbered system calls fail.
    const faults: nat -> bool
    var calls: nat
    var disk: Disk
    ghost var points: set<Disk>

    constructor (disk: Disk, faults: nat -> bool)
      ensures this.disk == disk && this.faults == faults && calls == 0
    {
      this.disk, this.faults := disk, faults;
      calls, points := 0, {disk};
    }

    // One system call: it takes effect, or fails and changes nothing.
    method Try(op: Op) returns (ok: bool)
      modifies this
      ensures ok == !faults(old(calls)) && calls == old(calls) + 1
      ensures disk == if ok then Apply(old(disk), op) else old(disk)
      ensures points == old(points) + {disk}
    {
      ok := !faults(calls);
      if ok { disk := Apply(disk, op); }
      calls := calls + 1;
      points := points + {disk};
    }

    // A call on a generation outside K, or a sync of the generations directory, in a stretch of such work.
    method TryOutside(op: Op, ghost K: string -> bool, ghost start: Disk, ghost earlier: set<Disk>) returns (ok: bool)
      requires op == SyncGenerations || (Touches(op).Some? && !K(Touches(op).value))
      requires Spared(start, disk, K) && Trail(start, earlier, points, K)
      modifies this
      ensures ok == !faults(old(calls)) && calls == old(calls) + 1
      ensures disk == if ok then Apply(old(disk), op) else old(disk)
      ensures Spared(start, disk, K) && Trail(start, earlier, points, K)
    {
      hide Apply, Spared, Trail;
      ApplySpares(disk, op, K);
      SparedItself(disk, K);
      ok := Try(op);
      OneMore(old(disk), disk, old(points), K);
      TrailGrows(start, old(disk), disk, earlier, old(points), points, K, K);
    }

    // os.RemoveAll on a generation, which may stop half way.
    method RemoveAll(g: string) returns (ok: bool)
      modifies this
      ensures calls >= old(calls) && ((forall k | k >= old(calls) :: !faults(k)) ==> ok)
      ensures ok ==> !Get(disk, g).present.now
      ensures Spared(old(disk), disk, But(g)) && Trail(old(disk), old(points), points, But(g))
      ensures disk.generations.Keys <= old(disk.generations.Keys) + {g}
      ensures forall h | h != g :: Get(disk, h) == old(Get(disk, h))
    {
      hide Same, Spared, Trail;
      TrailStarts(disk, points, But(g));
      ok := TryOutside(DropToken(g), But(g), old(disk), old(points));
      if ok { ok := TryOutside(DropManifest(g), But(g), old(disk), old(points)); }
      if ok { ok := TryOutside(Rmdir(g), But(g), old(disk), old(points)); }
    }

    // Remove every listed generation but one, then sync; it stops at the first failure.
    method CleanupInactiveGenerations(keep: Option<string>) returns (ok: bool)
      modifies this
      ensures (forall k :: !faults(k)) ==> ok
      ensures Spared(old(disk), disk, Only(keep)) && Trail(old(disk), old(points), points, Only(keep))
      ensures disk.generations.Keys <= old(disk.generations.Keys)
      ensures ok ==> Cleaned(old(disk), disk, keep)
    {
      hide Same, Trail;
      var left := set g | g in disk.generations && disk.generations[g].present.now && Some(g) != keep;
      TrailStarts(disk, points, Only(keep));
      while left != {}
        invariant forall g | g in left :: Some(g) != keep && g in old(disk.generations)
        invariant disk.generations.Keys <= old(disk.generations.Keys)
        invariant Spared(old(disk), disk, Only(keep)) && Trail(old(disk), old(points), points, Only(keep))
        invariant forall g | Some(g) != keep && g !in left :: !Get(disk, g).present.now
        decreases left
      {
        var g :| g in left;
        left := left - {g};
        ghost var d, ps := disk, points;
        ok := RemoveAll(g);
        TrailGrows(old(disk), d, disk, old(points), ps, points, But(g), Only(keep));
        if !ok { return; }
      }
      ghost var d := disk;
      ok := TryOutside(SyncGenerations, Only(keep), old(disk), old(points));
      SyncedListing(d);
    }

    // The steps before the commit: a new generation, written and synced; whatever fails, the link is untouched.
    method WriteGeneration(g: string, token: string, manifest: string) returns (ok: bool)
      requires g !in disk.generations
      modifies this
      ensures (forall k | old(calls) <= k < old(calls) + 5 :: !faults(k)) ==> ok && calls == old(calls) + 5
      ensures ok ==> Get(disk, g) == Written(token, manifest)
      // What a single failure leaves unfinished is removed again.
      ensures !ok && OneFault(faults) ==> !Get(disk, g).present.now
      ensures disk.generations.Keys <= old(disk.generations.Keys) + {g}
      ensures Spared(old(disk), disk, But(g)) && Trail(old(disk), old(points), points, But(g))
    {
      hide Same, Spared, Trail, Apply, Get, Written;
      TrailStarts(disk, points, But(g));
      WritingSteps(disk, g, token, manifest);
      NotThere(disk, g);
      ok := TryOutside(Mkdir(g), But(g), old(disk), old(points));
      if !ok { return; }
      var tokenText := token + "\n";
      ok := TryOutside(PutToken(g, tokenText), But(g), old(disk), old(points));
      if ok { ok := TryOutside(PutManifest(g, manifest), But(g), old(disk), old(points)); }
      if ok { ok := TryOutside(SyncGeneration(g), But(g), old(disk), old(points)); }
      if ok { ok := TryOutside(SyncGenerations, But(g), old(disk), old(points)); }
      if !ok {
        ghost var d, ps := disk, points;
        Discard(g);
        TrailGrows(old(disk), d, disk, old(points), ps, points, But(g), But(g));
      }
    }

    // The deferred removal of an uncommitted generation.
    method Discard(g: string)
      modifies this
      ensures (forall k | k >= old(calls) :: !faults(k)) ==> !Get(disk, g).present.now
      ensures disk.generations.Keys <= old(disk.generations.Keys) + {g}
      ensures Spared(old(disk), disk, But(g)) && Trail(old(disk), old(points), points, But(g))
    {
      hide Same, Spared, Trail;
      var removed := RemoveAll(g);
      var synced := TryOutside(SyncGenerations, But(g), old(disk), old(points));
    }

    // Whole before it is linked; the old generation stays until the link is synced. before: what a power loss
    // might have left when the save began.
    method SaveGeneration(g: string, token: string, manifest: string, ghost before: set<Loaded>) returns (reply: Reply)
      requires g !in disk.generations && Some(g) !in Possible(disk.current)
      modifies this
      ensures reply.Rejected? <==> !ValidToken(token)
      ensures Stored(reply) ==> LoadManifest(disk) == SavedAs(token, manifest)
      ensures disk.generations.Keys <= old(disk.generations.Keys) + {g}
      ensures !Stored(reply) ==> LoadManifest(disk) == old(LoadManifest(disk)) && disk.current == old(disk.current)
      ensures reply.Okay? || reply.CleanupDeferred? ==> Safe(disk, {SavedAs(token, manifest)}) && disk.current == Cell(Some(g), {})
      ensures reply.NotSynced? ==> disk.current == Cell(Some(g), Possible(old(disk.current)))
      // Killed at any point, the process leaves the old pair or the new one.
      ensures AllLoad(points, {old(LoadManifest(disk)), SavedAs(token, manifest)})
      // Power lost at any point, so does the disk.
      ensures Safe(old(disk), before) ==> Safe(disk, before + {SavedAs(token, manifest)}) && AllSafe(points, before + {SavedAs(token, manifest)})
      ensures ValidToken(token) && (forall k | old(calls) <= k < old(calls) + 6 :: !faults(k)) && faults(old(calls) + 6) ==> reply.NotSynced?
      ensures ValidToken(token) && (forall k :: !faults(k)) ==> reply.Okay?
      // Only the new generation is left, or after a single failure before the commit none of it.
      ensures reply.Okay? ==> Alone(disk, Some(g))
      ensures reply.NotCommitted? && OneFault(faults) ==> !Get(disk, g).present.now
    {
      hide Safe, AllSafe, AllLoad, LoadManifest, ValidToken, Apply, SavedAs, Same, Trail;
      ghost var value, calm := SavedAs(token, manifest), Safe(disk, before);
      ghost var loads, all := {LoadManifest(disk), value}, before + {value};
      points := {disk};
      Begin(disk, loads, calm, before, all);
      if !ValidToken(token) { return Rejected; }
      ghost var d, ps := disk, points;
      var whole := WriteGeneration(g, token, manifest);
      TrailFine(d, ps, points, disk, But(g), loads, calm, before, all);
      Weaken(disk, loads, calm, before, all);
      if !whole { return NotCommitted; }
      WrittenReads(disk, g, token, manifest);
      reply := Commit(g, loads, calm, before, value);
    }

    // From the rename of the link on, for a generation that is whole and reads as the value.
    method Commit(g: string, ghost loads: set<Loaded>, ghost calm: bool, ghost before: set<Loaded>, ghost value: Loaded) returns (reply: Reply)
      requires Whole(disk, g) && Read(disk, Some(g)) == value && value in loads && Some(g) !in Possible(disk.current)
      requires Fine(disk, loads, calm, before) && AllFine(points, loads, calm, before + {value})
      modifies this
      ensures !reply.Rejected? && disk.generations.Keys <= old(disk.generations.Keys) + {g}
      ensures Stored(reply) ==> LoadManifest(disk) == value
      ensures !Stored(reply) ==> LoadManifest(disk) == old(LoadManifest(disk)) && disk.current == old(disk.current)
      ensures reply.Okay? || reply.CleanupDeferred? ==> Safe(disk, {value}) && disk.current == Cell(Some(g), {})
      ensures reply.NotSynced? ==> disk.current == Cell(Some(g), Possible(old(disk.current)))
      ensures Fine(disk, loads, calm, before + {value}) && AllFine(points, loads, calm, before + {value})
      ensures !faults(old(calls)) && faults(old(calls) + 1) ==> reply.NotSynced?
      ensures (forall k :: !faults(k)) ==> reply.Okay?
      ensures reply.Okay? ==> Alone(disk, Some(g))
      ensures reply.NotCommitted? && OneFault(faults) ==> !Get(disk, g).present.now
    {
      hide Safe, AllSafe, AllLoad, LoadManifest, Apply, Same, Trail, Whole;
      ghost var all := before + {value};
      ghost var d, ps := disk, points;
      var committed := Try(Point(g));
      LinkOnly(d, g);
      if !committed {
        AddPoint(ps, disk, loads, calm, before, all);
        d, ps := disk, points;
        Discard(g);
        TrailFine(d, ps, points, disk, But(g), loads, calm, before, all);
        Weaken(disk, loads, calm, before, all);
        return NotCommitted;
      }
      Pointed(d, g, loads, calm, before, value);
      AddPoint(ps, disk, loads, calm, all, all);
      d, ps := disk, points;
      var synced := Try(SyncRoot);
      if !synced {
        AddPoint(ps, disk, loads, calm, all, all);
        return NotSynced;
      }
      SyncRootIsSafe(d);
      AddPoint(ps, disk, loads, calm, {value}, all);
      d, ps := disk, points;
      var clean := CleanupInactiveGenerations(Some(g));
      SparedFine(d, disk, Only(Some(g)), loads, true, {value}, {value});
      TrailFine(d, ps, points, disk, Only(Some(g)), loads, calm, {value}, all);
      Weaken(disk, loads, calm, {value}, all);
      reply := if clean then Okay else CleanupDeferred;
    }

    method Clear(ghost before: set<Loaded>) returns (reply: Reply)
      modifies this
      ensures !reply.Rejected? && (reply.NotCommitted? ==> disk == old(disk))
      ensures (forall k :: !faults(k)) ==> reply.Okay?
      ensures reply.Okay? ==> Alone(disk, None)
      ensures Stored(reply) ==> LoadManifest(disk) == NotFound
      ensures reply.Okay? || reply.CleanupDeferred? ==> Safe(disk, {NotFound}) && disk.current == Cell(None, {})
      ensures reply.NotSynced? ==> disk.current == Cell(None, Possible(old(disk.current)))
      ensures AllLoad(points, {old(LoadManifest(disk)), NotFound})
      ensures Safe(old(disk), before) ==> Safe(disk, before + {NotFound}) && AllSafe(points, before + {NotFound})
    {
      hide Safe, AllSafe, AllLoad, LoadManifest, Apply, Same, Trail;
      ghost var calm := Safe(disk, before);
      ghost var loads, all := {LoadManifest(disk), NotFound}, before + {NotFound};
      points := {disk};
      Begin(disk, loads, calm, before, all);
      ghost var d, ps := disk, points;
      var committed := Try(Unpoint);
      if !committed {
        AddPoint(ps, disk, loads, calm, before, all);
        Weaken(disk, loads, calm, before, all);
        return NotCommitted;
      }
      Unpointed(d, loads, calm, before);
      AddPoint(ps, disk, loads, calm, all, all);
      d, ps := disk, points;
      var synced := Try(SyncRoot);
      if !synced {
        AddPoint(ps, disk, loads, calm, all, all);
        return NotSynced;
      }
      SyncRootIsSafe(d);
      AddPoint(ps, disk, loads, calm, {NotFound}, all);
      d, ps := disk, points;
      var clean := CleanupInactiveGenerations(None);
      SparedFine(d, disk, Only(None), loads, true, {NotFound}, {NotFound});
      TrailFine(d, ps, points, disk, Only(None), loads, calm, {NotFound}, all);
      Weaken(disk, loads, calm, {NotFound}, all);
      reply := if clean then Okay else CleanupDeferred;
    }

    // New: keep the generation the link names and remove the rest, on any disk. values: what a power loss might
    // have left before.
    method Open(ghost values: set<Loaded>) returns (ok: bool)
      modifies this
      ensures (forall k :: !faults(k)) ==> ok
      ensures ok ==> Cleaned(old(disk), disk, disk.current.now)
      // Killed at any point and opened again, the process loads what it loaded before.
      ensures disk.current == old(disk.current) && LoadManifest(disk) == old(LoadManifest(disk))
      ensures AllLoad(points, {old(LoadManifest(disk))})
      // Power losses stay harmless if the link can come back to no other generation ...
      ensures Safe(old(disk), values) && LinkStays(old(disk)) ==> Safe(disk, values) && AllSafe(points, values)
      // ... and, the cleanup done, only then.
      ensures ok && Safe(old(disk), values) && Broken !in values ==> (Safe(disk, values) <==> LinkStays(old(disk)))
    {
      hide Safe, AllSafe, AllLoad, LoadManifest, Same, Trail, LinkStays, Cleaned;
      ghost var d, calm := disk, Safe(disk, values) && LinkStays(disk);
      points := {disk};
      Begin(disk, {LoadManifest(disk)}, calm, values, values);
      ghost var ps := points;
      ok := CleanupInactiveGenerations(disk.current.now);
      Opened(d, ps, points, disk, calm, values);
      if ok && Safe(d, values) && Broken !in values { ReopenSafeIff(d, disk, values); }
    }
  }

  // The link names no generation a power loss could exchange for another.
  ghost predicate LinkStays(d: Disk) { forall p | p in d.current.older :: p.None? || p == d.current.now }

  // The five steps of writing a generation.
  lemma WritingSteps(d: Disk, g: string, token: string, manifest: string)
    requires g !in d.generations
    ensures var d1 := Apply(d, Mkdir(g));
            var d2 := Apply(d1, PutToken(g, token + "\n"));
            var d3 := Apply(d2, PutManifest(g, manifest));
            var d4 := Apply(d3, SyncGeneration(g));
            var d5 := Apply(d4, SyncGenerations);
            && Get(d5, g) == Written(token, manifest)
            && d1.generations.Keys == d2.generations.Keys == d3.generations.Keys == d.generations.Keys + {g}
            && d4.generations.Keys == d5.generations.Keys == d.generations.Keys + {g}
  {
  }

  lemma NotThere(d: Disk, g: string)
    ensures g !in d.generations ==> !Get(d, g).present.now
  {
  }

  lemma LinkOnly(d: Disk, g: string)
    ensures Apply(d, Point(g)).generations == d.generations
    ensures forall x :: Apply(x, SyncRoot).generations == x.generations
  {
  }

  lemma Begin(d: Disk, loads: set<Loaded>, calm: bool, before: set<Loaded>, all: set<Loaded>)
    requires LoadManifest(d) in loads && (calm ==> Safe(d, before)) && before <= all
    ensures AllFine({d}, loads, calm, all) && Fine(d, loads, calm, before) && Fine(d, loads, calm, all)
  {
    hide Safe, LoadManifest;
    if calm { SaferWithMore(d, before, all); }
  }

  lemma Weaken(d: Disk, loads: set<Loaded>, calm: bool, values: set<Loaded>, all: set<Loaded>)
    requires Fine(d, loads, calm, values) && values <= all
    ensures Fine(d, loads, calm, all)
  {
    hide Safe, LoadManifest;
    if calm { SaferWithMore(d, values, all); }
  }

  lemma Pointed(d: Disk, g: string, loads: set<Loaded>, calm: bool, before: set<Loaded>, value: Loaded)
    requires Fine(d, loads, calm, before) && Whole(d, g) && Read(d, Some(g)) == value && value in loads
    ensures var d' := Apply(d, Point(g));
            && Fine(d', loads, calm, before + {value}) && LoadManifest(d') == value
            && d'.current == Cell(Some(g), Possible(d.current)) && Whole(d', g)
  {
    hide Safe, Read, Whole;
    PointReads(d, g);
    if calm { PointIsSafe(d, g, before); }
  }

  lemma Unpointed(d: Disk, loads: set<Loaded>, calm: bool, before: set<Loaded>)
    requires Fine(d, loads, calm, before) && NotFound in loads
    ensures var d' := Apply(d, Unpoint);
            Fine(d', loads, calm, before + {NotFound}) && LoadManifest(d') == NotFound && d'.current == Cell(None, Possible(d.current))
  {
    hide Safe;
    if calm { UnpointIsSafe(d, before); }
  }

  lemma Opened(d: Disk, earlier: set<Disk>, points: set<Disk>, d': Disk, calm: bool, values: set<Loaded>)
    requires Spared(d, d', Only(d.current.now)) && Trail(d, earlier, points, Only(d.current.now)) && (calm ==> LinkStays(d))
    requires Fine(d, {LoadManifest(d)}, calm, values) && AllFine(earlier, {LoadManifest(d)}, calm, values)
    ensures AllFine(points, {LoadManifest(d)}, calm, values) && Fine(d', {LoadManifest(d)}, calm, values)
  {
    hide Safe, LoadManifest;
    var K := Only(d.current.now);
    if calm {
      TrailFine(d, earlier, points, d', K, {LoadManifest(d)}, calm, values, values);
    } else {
      forall x | x in points && x !in earlier ensures LoadManifest(x) == LoadManifest(d) { SparedLoads(d, x, K); }
      SparedLoads(d, d', K);
    }
  }

  // After a complete cleanup, power losses are harmless exactly when no unsynced change of the link could still be
  // undone to another generation: the cleanup syncs the generations directory, but not the directory of the link.
  lemma ReopenSafeIff(d: Disk, d': Disk, values: set<Loaded>)
    requires Safe(d, values) && Broken !in values && Cleaned(d, d', d.current.now)
    ensures Safe(d', values) <==> LinkStays(d)
  {
    forall p | p in Possible(d.current) && (p.None? || p == d.current.now)
      ensures (p.Some? ==> Whole(d', p.value)) && Read(d', p) in values
    {
      assert p.Some? ==> Whole(d, p.value) && Same(d, d', p.value);
      assert Read(d', p) == Read(d, p);
    }
    forall p | p in d.current.older && p.Some? && p != d.current.now ensures Read(d', p) == Broken && p in Possible(d.current) {}
  }

  // A written generation is whole and reads back as saved.
  lemma WrittenReads(d: Disk, g: string, token: string, manifest: string)
    requires ValidToken(token) && Get(d, g) == Written(token, manifest)
    ensures Whole(d, g) && Read(d, Some(g)) == SavedAs(token, manifest)
  {
    assert TrimNewline(token + "\n") == token;
  }

  predicate Stored(reply: Reply) { reply.Okay? || reply.CleanupDeferred? || reply.NotSynced? }

  function Written(token: string, manifest: string): Generation
  {
    Generation(Cell(true, {}), Cell(Some(token + "\n"), {}), Cell(Some(manifest), {}))
  }

  lemma SparedItself(d: Disk, K: string -> bool)
    ensures Spared(d, d, K)
  {
  }

  lemma TrailStarts(d: Disk, points: set<Disk>, K: string -> bool)
    ensures Spared(d, d, K) && Trail(d, points, points, K)
  {
  }

  lemma OneMore(d: Disk, d': Disk, points: set<Disk>, K: string -> bool)
    requires Spared(d, d', K)
    ensures Trail(d, points, points + {d'}, K)
  {
  }

  // Two stretches of work one after the other.
  lemma TrailGrows(d: Disk, d': Disk, d'': Disk, earlier: set<Disk>, mid: set<Disk>, points: set<Disk>, K': string -> bool, K: string -> bool)
    requires Spared(d, d', K) && Trail(d, earlier, mid, K)
    requires Spared(d', d'', K') && Trail(d', mid, points, K') && forall g | K(g) :: K'(g)
    ensures Spared(d, d'', K) && Trail(d, earlier, points, K)
  {
    hide Same;
    assert Spared(d', d'', K);
    SparedTransitive(d, d', d'', K);
    forall x | x in points && x !in earlier ensures Spared(d, x, K) {
      if x !in mid {
        assert Spared(d', x, K);
        SparedTransitive(d, d', x, K);
      }
    }
  }

  lemma SyncedListing(d: Disk)
    ensures forall g :: Get(Apply(d, SyncGenerations), g).present == Cell(Get(d, g).present.now, {})
  {
  }
}

/**
 The setup service on top of the disk repository: what each reply of a save
 means to the service, and when the pair it committed can be read again.
 */
module SetupBridge {
  import opened Options
  import opened SetupDisk
  import opened SetupRepository
  import opened SetupService

  // Manifests as text; decoding undoes encoding.
  datatype Codec = Codec(encode: Manifest -> string, decode: string -> Option<Manifest>)

  ghost predicate ValidCodec(codec: Codec) { forall m :: codec.decode(codec.encode(m)) == Some(m) }

  datatype Seen = Absent | Present(saved: Saved) | Unreadable

  function See(codec: Codec, d: Disk): Seen
  {
    match LoadManifest(d)
    case NotFound => Absent
    case Broken => Unreadable
    case Pair(token, text) =>
      match codec.decode(text)
      case None => Unreadable
      case Some(manifest) => Present(Saved(token, manifest))
  }

  // How the service sees each reply of the repository.
  function OutcomeOf(reply: Reply): SaveOutcome
  {
    match reply
    case Okay => Clean
    case CleanupDeferred => Deferred
    case NotSynced => Unsynced
    case NotCommitted => NotSaved
    case Rejected => NotSaved
  }

  // The saved files stay within what a load accepts.
  predicate Fits(codec: Codec, saved: Saved)
  {
    |saved.token| < MaxTokenBytes && |codec.encode(saved.manifest)| <= MaxManifestBytes
  }

  // What is seen once the pair has been stored.
  function SeenAs(codec: Codec, saved: Saved): Seen { if Fits(codec, saved) then Present(saved) else Unreadable }

  predicate Fresh(d: Disk, g: string) { g !in d.generations && Some(g) !in Possible(d.current) }

  method SaveManifest(repo: Repository, codec: Codec, g: string, saved: Saved) returns (outcome: SaveOutcome)
    requires ValidCodec(codec) && Fresh(repo.disk, g)
    modifies repo
    ensures See(codec, repo.disk) == if outcome == NotSaved then old(See(codec, repo.disk)) else SeenAs(codec, saved)
    ensures forall h | h != g && old(Fresh(repo.disk, h)) :: Fresh(repo.disk, h)
  {
    hide LoadManifest, Safe, AllSafe, AllLoad, ValidToken;
    var reply := repo.SaveGeneration(g, saved.token, codec.encode(saved.manifest), {});
    outcome := OutcomeOf(reply);
  }

  // rollbackPersistence on the disk.
  method Rollback(repo: Repository, codec: Codec, g: string, previous: Seen)
    requires ValidCodec(codec) && Fresh(repo.disk, g) && !previous.Unreadable? && (previous.Present? ==> Fits(codec, previous.saved))
    modifies repo
    ensures See(codec, repo.disk) == previous || See(codec, repo.disk) == old(See(codec, repo.disk))
  {
    hide LoadManifest, Safe, AllSafe, AllLoad, ValidToken;
    if previous.Present? {
      var outcome := SaveManifest(repo, codec, g, previous.saved);
    } else {
      var reply := repo.Clear({});
    }
  }

  function DurableOf(seen: Seen): Option<Saved> { if seen.Present? then Some(seen.saved) else None }

  // commitManifest with its saves, loads and rollback on the disk; f is what the service's faults then were.
  method CommitOnDisk(repo: Repository, codec: Codec, g: string, h: string, saved: Saved, prepared: bool, publish: bool)
    returns (ok: bool, f: Faults)
    requires ValidCodec(codec) && g != h && Fresh(repo.disk, g) && Fresh(repo.disk, h)
    requires See(codec, repo.disk).Present? ==> Fits(codec, See(codec, repo.disk).saved)
    modifies repo
    ensures ok == Succeeds(f) && f.prepared == prepared && f.publish == publish
    ensures f.loadBefore == !old(See(codec, repo.disk)).Unreadable?
    // A pair within the limits: the service's account of the commit is true of the disk.
    ensures Fits(codec, saved) && f.loadBefore ==> f.loadAfter && !See(codec, repo.disk).Unreadable?
    ensures Fits(codec, saved) && f.loadBefore ==>
              forall s: State | s.durable == DurableOf(old(See(codec, repo.disk))) ::
                AfterCommit(s, saved, f).durable == DurableOf(See(codec, repo.disk))
    // A pair beyond them: once committed it cannot be read, so no later commit gets past its first load.
    ensures !Fits(codec, saved) && ok ==> See(codec, repo.disk).Unreadable?
  {
    hide ValidCodec, Fits, Fresh, LoadManifest;
    var before := See(codec, repo.disk);
    f := Faults(prepared, !before.Unreadable?, NotSaved, true, publish, true);
    if !prepared || before.Unreadable? { return false, f; }
    var outcome := SaveManifest(repo, codec, g, saved);
    var after := See(codec, repo.disk);
    f := f.(save := outcome, loadAfter := !after.Unreadable?);
    if outcome != Clean {
      var committed := after == Present(saved);
      if !(outcome == Deferred && committed) {
        if committed {
          Rollback(repo, codec, h, before);
          f := f.(rollback := See(codec, repo.disk) == before);
        }
        return false, f;
      }
    }
    if !publish {
      Rollback(repo, codec, h, before);
      f := f.(rollback := See(codec, repo.disk) == before);
      return false, f;
    }
    ok := true;
  }
}

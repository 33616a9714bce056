/**
 Whole stories of the setup directory: a save or a clear that is killed or
 loses power at any system call, the reopening that follows, and what is
 loaded then. A process killed at call n is one whose calls from n on never
 take effect.
 */
module SetupCrashes {
  import opened Options
  import opened SetupDisk
  import opened SetupRepository

  function KilledAt(n: nat, faults: nat -> bool): nat -> bool { (k: nat) => k >= n || faults(k) }

  function NoFaults(): nat -> bool { (k: nat) => false }

  /******* The process is killed *******/

  // Killed at any call of a save and opened again, on any disk: exactly the old pair or the new one.
  method KillSaveAndReopen(d: Disk, g: string, token: string, manifest: string, n: nat, first: nat -> bool, second: nat -> bool)
    returns (loaded: Loaded)
    requires g !in d.generations && Some(g) !in Possible(d.current)
    ensures loaded == LoadManifest(d) || loaded == SavedAs(token, manifest)
  {
    hide LoadManifest, SavedAs, Safe, AllSafe, AllLoad;
    var saving := new Repository(d, KilledAt(n, first));
    var reply := saving.SaveGeneration(g, token, manifest, {});
    var opening := new Repository(saving.disk, second);
    var ok := opening.Open({});
    loaded := LoadManifest(opening.disk);
  }

  method KillClearAndReopen(d: Disk, n: nat, first: nat -> bool, second: nat -> bool) returns (loaded: Loaded)
    ensures loaded == LoadManifest(d) || loaded == NotFound
  {
    hide LoadManifest, Safe, AllSafe, AllLoad;
    var clearing := new Repository(d, KilledAt(n, first));
    var reply := clearing.Clear({});
    var opening := new Repository(clearing.disk, second);
    var ok := opening.Open({});
    loaded := LoadManifest(opening.disk);
  }

  /******* Power is lost *******/

  // Power lost at any call of a save, in any way, and the disk opened again: exactly an old pair or the new one.
  method LosePowerAndReopen(d: Disk, g: string, token: string, manifest: string, n: nat, first: nat -> bool, second: nat -> bool, lose: Disk -> Disk, ghost before: set<Loaded>)
    returns (loaded: Loaded)
    requires g !in d.generations && Some(g) !in Possible(d.current) && Safe(d, before)
    requires forall x :: PowerLoss(x, lose(x))
    ensures loaded in before + {SavedAs(token, manifest)}
  {
    hide LoadManifest, SavedAs, Safe, AllSafe, AllLoad, PowerLoss;
    var saving := new Repository(d, KilledAt(n, first));
    var reply := saving.SaveGeneration(g, token, manifest, before);
    var settled := lose(saving.disk);
    SafeSurvives(saving.disk, settled, before + {SavedAs(token, manifest)});
    var opening := new Repository(settled, second);
    var ok := opening.Open({LoadManifest(settled)});
    loaded := LoadManifest(opening.disk);
  }

  /******* Where the design falls short *******/

  // Killed between its rename and its sync, opened again, and only then cut off from power: a dangling link.
  method RestartThenPowerLoss(d: Disk, before: string, after: string, token: string, manifest: string)
    returns (killed: Disk, reopened: Disk, crashed: Disk)
    requires d.current == Cell(Some(before), {}) && after != before && after !in d.generations && ValidToken(token)
    ensures LoadManifest(killed) == SavedAs(token, manifest) && LoadManifest(reopened) == LoadManifest(killed)
    ensures PowerLoss(reopened, crashed) && LoadManifest(crashed) == Broken
  {
    hide LoadManifest, SavedAs, Safe, AllSafe, AllLoad, PowerLoss, ValidToken, Same;
    var saving := new Repository(d, KilledAt(6, NoFaults()));
    var reply := saving.SaveGeneration(after, token, manifest, {});
    killed := saving.disk;
    var opening := new Repository(killed, NoFaults());
    var ok := opening.Open({});
    reopened := opening.disk;
    assert Some(before) in Possible(reopened.current) && !Get(reopened, before).present.now;
    crashed := LinkLost(reopened, Some(before));
    LinkLostIsPowerLoss(reopened, Some(before));
  }

  const SampleDisk := Disk(Cell(Some("a"), {}), map["a" := Written("token", "manifest")])

  // It happens from a disk with one saved pair and nothing unsynced.
  method RestartThenPowerLossSample() returns (reopened: Disk, crashed: Disk)
    ensures LoadManifest(SampleDisk) == Pair("token", "manifest") && LoadManifest(reopened) == Pair("new", "other")
    ensures PowerLoss(reopened, crashed) && LoadManifest(crashed) == Broken
  {
    hide PowerLoss;
    var killed: Disk;
    WrittenReads(SampleDisk, "a", "token", "manifest");
    killed, reopened, crashed := RestartThenPowerLoss(SampleDisk, "a", "b", "new", "other");
  }

  // A pair whose save took effect loads again exactly when the token leaves room for the newline written after it
  // and the manifest is within its limit; otherwise nothing loads.
  method SaveAndLoad(d: Disk, g: string, token: string, manifest: string, faults: nat -> bool) returns (reply: Reply, loaded: Loaded)
    requires g !in d.generations && Some(g) !in Possible(d.current)
    ensures Stored(reply) ==> (loaded == Pair(token, manifest) <==> |token| < 4096 && |manifest| <= 524_288)
    ensures Stored(reply) && loaded != Pair(token, manifest) ==> loaded == Broken
    ensures !Stored(reply) ==> loaded == LoadManifest(d)
    ensures ValidToken(token) && (forall k :: !faults(k)) ==> reply.Okay?
  {
    hide LoadManifest, Safe, AllSafe, AllLoad, ValidToken;
    var saving := new Repository(d, faults);
    reply := saving.SaveGeneration(g, token, manifest, {});
    loaded := LoadManifest(saving.disk);
  }

  // The longest token that passes validation is saved without an error and never loads again.
  method LongestTokenIsLost(d: Disk, g: string, manifest: string) returns (reply: Reply, loaded: Loaded)
    requires g !in d.generations && Some(g) !in Possible(d.current)
    ensures ValidToken(seq(4096, i => 'x')) && reply.Okay? && loaded == Broken
  {
    reply, loaded := SaveAndLoad(d, g, seq(4096, i => 'x'), manifest, NoFaults());
  }
}

/**
 The setup service: one saved manifest, one published runtime and one status
 view, changed together by commits and restores. The repository is the pair
 it loads; what each call to it does is given by the faults of the step.
 */
module SetupService {
  import opened Options
  import opened Subsequences

  const MaximumSetupManifestItems := 100

  datatype MediaType = Movie | Episode

  datatype Item = Item(
    provider: string, objectID: string, name: string, size: int, mediaType: MediaType,
    title: string, year: int, showTitle: string, season: int, episode: int)

  type Manifest = seq<Item>

  datatype Saved = Saved(token: string, manifest: Manifest)

  // published is the manifest behind the published runtime; active is what the status reports.
  datatype State = State(
    durable: Option<Saved>,
    published: Option<Manifest>,
    active: Option<Manifest>,
    tokenConfigured: bool,
    savedItemCount: nat)

  /******* Commit *******/

  // A save may succeed, succeed without its cleanup, be visible in spite of an error, or not happen.
  datatype SaveOutcome = Clean | Deferred | Unsynced | NotSaved

  // prepared: the runtime was built and is ready. The others say which calls work.
  datatype Faults = Faults(prepared: bool, loadBefore: bool, save: SaveOutcome, loadAfter: bool, publish: bool, rollback: bool)

  // Reads and the rollback work.
  predicate Working(f: Faults) { f.loadBefore && f.loadAfter && f.rollback }

  predicate Succeeds(f: Faults)
  {
    f.prepared && f.loadBefore && (f.save == Clean || (f.save == Deferred && f.loadAfter)) && f.publish
  }

  function Committed(s: State, saved: Saved): State
  {
    State(Some(saved), Some(saved.manifest), Some(saved.manifest), true, |saved.manifest|)
  }

  // A failed commit leaves the new pair saved only when it could not be read back or rolled back.
  predicate LeavesNew(s: State, saved: Saved, f: Faults)
  {
    && f.prepared && f.loadBefore && f.save != NotSaved
    && (if f.save != Clean && !f.loadAfter then true else !f.rollback)
  }

  function AfterCommit(s: State, saved: Saved, f: Faults): State
  {
    if Succeeds(f) then Committed(s, saved)
    else if LeavesNew(s, saved, f) then s.(durable := Some(saved))
    else s
  }

  /******* Restore *******/

  // What the restore factory prepared, if anything, and whether the runtime is ready and can be published.
  datatype Preparation = Preparation(load: bool, active: Option<Manifest>, ready: bool, publish: bool)

  ghost predicate Restorable(saved: Manifest, p: Preparation)
  {
    p.active.Some? && p.active.value != [] && Subsequence(p.active.value, saved)
  }

  ghost predicate Restores(s: State, p: Preparation)
  {
    && s.durable.Some? && p.load && Restorable(s.durable.value.manifest, p)
    && (|p.active.value| < |s.durable.value.manifest| ==> s.active.None?)
    && p.ready && p.publish
  }

  ghost function AfterRestore(s: State, p: Preparation): State
  {
    if s.durable.None? || !p.load then s
    else
      var seen := s.(tokenConfigured := true, savedItemCount := |s.durable.value.manifest|);
      if Restores(s, p) then seen.(published := p.active, active := p.active) else seen
  }

  /******* Publication of one acquired item *******/

  predicate SameBacking(a: Item, b: Item) { a.provider == b.provider && a.objectID == b.objectID }

  predicate SameLogicalMedia(a: Item, b: Item)
  {
    && a.mediaType == b.mediaType && a.year == b.year
    && (if a.mediaType == Movie then a.title == b.title
        else a.showTitle == b.showTitle && a.season == b.season && a.episode == b.episode)
  }

  predicate Replaces(a: Item, c: Item) { SameBacking(a, c) || SameLogicalMedia(a, c) }

  // The first item the new one replaces, or the end.
  function FirstReplaced(items: Manifest, c: Item): (i: nat)
    ensures i <= |items| && (i < |items| ==> Replaces(items[i], c)) && forall j | 0 <= j < i :: !Replaces(items[j], c)
  {
    if items == [] then 0
    else
      var i := FirstReplaced(items[..|items| - 1], c);
      if i < |items| - 1 || Replaces(items[|items| - 1], c) then i else |items|
  }

  function WithItem(items: Manifest, c: Item): Manifest
  {
    var i := FirstReplaced(items, c);
    if i < |items| then items[i := c] else items + [c]
  }

  // itemOk and path stand for the checks on one item and its library path.
  datatype Rules = Rules(itemOk: Item -> bool, path: Item -> string)

  predicate ValidManifest(rules: Rules, m: Manifest)
  {
    && 0 < |m| <= MaximumSetupManifestItems
    && (forall i | 0 <= i < |m| :: rules.itemOk(m[i]))
    && (forall i, j | 0 <= i < j < |m| :: !SameBacking(m[i], m[j]) && rules.path(m[i]) != rules.path(m[j]))
  }

  predicate Attempts(rules: Rules, s: State, c: Item)
  {
    s.durable.Some? && ValidManifest(rules, WithItem(s.durable.value.manifest, c))
  }

  function AfterPublish(rules: Rules, s: State, c: Item, f: Faults): State
  {
    if Attempts(rules, s, c) then AfterCommit(s, Saved(s.durable.value.token, WithItem(s.durable.value.manifest, c)), f) else s
  }

  /******* The service object *******/

  class Service {
    const rules: Rules
    var durable: Option<Saved>
    var published: Option<Manifest>
    var active: Option<Manifest>
    var tokenConfigured: bool
    var savedItemCount: nat

    constructor (rules: Rules, durable: Option<Saved>)
      ensures this.rules == rules && View() == State(durable, None, None, false, 0)
    {
      this.rules, this.durable := rules, durable;
      published, active, tokenConfigured, savedItemCount := None, None, false, 0;
    }

    function View(): State
      reads this
    {
      State(durable, published, active, tokenConfigured, savedItemCount)
    }

    method SetStatus(manifest: Manifest, saved: nat)
      modifies this`active, this`tokenConfigured, this`savedItemCount
      ensures active == Some(manifest) && tokenConfigured && savedItemCount == saved
    {
      active, tokenConfigured, savedItemCount := Some(manifest), true, saved;
    }

    method RollbackPersistence(previous: Option<Saved>, works: bool)
      modifies this`durable
      ensures durable == if works then previous else old(durable)
    {
      if works { durable := previous; }
    }

    method CommitManifest(token: string, manifest: Manifest, f: Faults) returns (ok: bool)
      modifies this
      ensures ok == Succeeds(f)
      ensures View() == AfterCommit(old(View()), Saved(token, manifest), f)
    {
      if !f.prepared || !f.loadBefore { return false; }
      var previous := durable;
      if f.save != NotSaved { durable := Some(Saved(token, manifest)); }
      if f.save != Clean {
        var committed := f.loadAfter && durable == Some(Saved(token, manifest));
        if !(f.save == Deferred && committed) {
          if committed { RollbackPersistence(previous, f.rollback); }
          return false;
        }
      }
      if !f.publish {
        RollbackPersistence(previous, f.rollback);
        return false;
      }
      published := Some(manifest);
      SetStatus(manifest, |manifest|);
      ok := true;
    }

    method PublishAcquired(c: Item, f: Faults) returns (ok: bool)
      modifies this
      ensures ok <==> Attempts(rules, old(View()), c) && Succeeds(f)
      ensures View() == AfterPublish(rules, old(View()), c, f)
    {
      if durable.None? || !f.loadBefore { return false; }
      var token, items := durable.value.token, durable.value.manifest;
      var i := 0;
      while i < |items| && !Replaces(items[i], c)
        invariant 0 <= i <= |items| && forall j | 0 <= j < i :: !Replaces(items[j], c)
      {
        i := i + 1;
      }
      assert i == FirstReplaced(items, c);
      if i < |items| {
        items := items[i := c];
      } else {
        if |items| == MaximumSetupManifestItems { return false; }
        items := items + [c];
      }
      if !ValidManifest(rules, items) { return false; }
      ok := CommitManifest(token, items, f);
    }

    // The greedy scan: each active item is matched with the next equal saved one.
    method ValidateRestorePreparation(saved: Manifest, current: Manifest) returns (ok: bool)
      ensures ok <==> current != [] && Subsequence(current, saved)
    {
      if current == [] { return false; }
      if |current| > |saved| {
        SubsequenceLength(current, saved);
        return false;
      }
      var at := 0;
      ghost var taken: seq<int> := [];
      for i := 0 to |current|
        invariant 0 <= at <= |saved| && Embeds(current[..i], saved, taken)
        invariant forall j | 0 <= j < i :: taken[j] < at
        invariant i < |current| ==> forall e | Embeds(current, saved, e) :: at <= e[i]
      {
        while at < |saved| && saved[at] != current[i]
          invariant 0 <= at <= |saved| && forall j | 0 <= j < i :: taken[j] < at
          invariant forall e | Embeds(current, saved, e) :: at <= e[i]
        {
          at := at + 1;
        }
        if at == |saved| { return false; }
        Extend(current, saved, taken, i, at);
        taken := taken + [at];
        at := at + 1;
      }
      assert current[..|current|] == current;
      ok := true;
    }

    method Restore(p: Preparation) returns (ok: bool)
      modifies this
      ensures View() == AfterRestore(old(View()), p)
      ensures ok <==> Restores(old(View()), p) && |p.active.value| == |durable.value.manifest|
    {
      if durable.None? || !p.load { return false; }
      var manifest := durable.value.manifest;
      tokenConfigured, savedItemCount := true, |manifest|;
      if p.active.None? { return false; }
      var valid := ValidateRestorePreparation(manifest, p.active.value);
      if !valid { return false; }
      SubsequenceLength(p.active.value, manifest);
      var degraded := |p.active.value| < |manifest|;
      if degraded && active.Some? { return false; }
      if !p.ready || !p.publish { return false; }
      published := p.active;
      SetStatus(p.active.value, |manifest|);
      ok := !degraded;
    }
  }

  lemma Extend<T>(a: seq<T>, b: seq<T>, taken: seq<int>, i: nat, at: nat)
    requires i < |a| && at < |b| && b[at] == a[i] && Embeds(a[..i], b, taken) && forall j | 0 <= j < i :: taken[j] < at
    requires forall e | Embeds(a, b, e) :: at <= e[i]
    ensures Embeds(a[..i + 1], b, taken + [at])
    ensures i + 1 < |a| ==> forall e | Embeds(a, b, e) :: at + 1 <= e[i + 1]
  {
  }
}

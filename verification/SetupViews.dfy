/** Saved manifest, published runtime and status agree through every run of commits and restores. */
module SetupViews {
  import opened Options
  import opened Subsequences
  import opened SetupService

  // The runtime serves what the status says: an ordered part of the saved manifest.
  ghost predicate Agree(s: State)
  {
    && s.published == s.active
    && (s.active.Some? ==>
          && s.durable.Some? && s.active.value != [] && Subsequence(s.active.value, s.durable.value.manifest)
          && s.tokenConfigured && s.savedItemCount == |s.durable.value.manifest|)
  }

  datatype Event =
    | Commit(saved: Saved, faults: Faults)
    | Publish(item: Item, faults: Faults)
    | Restore(preparation: Preparation)

  // Manifests are validated before they are committed; reads and rollbacks work.
  predicate Enabled(rules: Rules, e: Event)
  {
    match e
    case Commit(saved, f) => ValidManifest(rules, saved.manifest) && Working(f)
    case Publish(_, f) => Working(f)
    case Restore(_) => true
  }

  ghost function Step(rules: Rules, s: State, e: Event): State
  {
    match e
    case Commit(saved, f) => AfterCommit(s, saved, f)
    case Publish(item, f) => AfterPublish(rules, s, item, f)
    case Restore(p) => AfterRestore(s, p)
  }

  ghost function Exec(rules: Rules, s: State, events: seq<Event>): Option<State>
    decreases |events|
  {
    if events == [] then Some(s)
    else if !Enabled(rules, events[0]) then None
    else Exec(rules, Step(rules, s, events[0]), events[1..])
  }

  // Everything worked: the runtime was built, the old pair read, the new one saved, or seen to be saved, and published.
  predicate AllWorked(f: Faults)
  {
    f.prepared && f.loadBefore && f.publish && f.save != Unsynced && f.save != NotSaved && (f.save == Deferred ==> f.loadAfter)
  }

  // A commit makes all views the new manifest exactly when everything worked, and otherwise changes none of them.
  lemma CommitAllOrNothing(s: State, saved: Saved, f: Faults)
    ensures Succeeds(f) <==> AllWorked(f)
    ensures AllWorked(f) ==>
              var s' := AfterCommit(s, saved, f);
              && s'.durable == Some(saved) && s'.published == Some(saved.manifest) && s'.active == Some(saved.manifest)
              && s'.tokenConfigured && s'.savedItemCount == |saved.manifest|
    ensures !AllWorked(f) && f.loadBefore && f.loadAfter && f.rollback ==> AfterCommit(s, saved, f) == s
    ensures !AllWorked(f) ==> var s' := AfterCommit(s, saved, f); s' == s.(durable := s'.durable)
  {
  }

  // A failed commit leaves the saved pair as it was exactly when it never saved, or could roll back: after a clean
  // save whenever the rollback works, after any other save only if the new pair could also be read back.
  lemma FailedCommitKeepsSavedIff(s: State, saved: Saved, f: Faults)
    requires !Succeeds(f) && s.durable != Some(saved)
    ensures AfterCommit(s, saved, f).durable == s.durable <==>
            !f.prepared || !f.loadBefore || f.save == NotSaved || (f.rollback && (f.save == Clean || f.loadAfter))
  {
  }

  lemma Whole<T>(a: seq<T>)
    ensures Subsequence(a, a)
  {
    assert Embeds(a, a, seq(|a|, i => i));
  }

  lemma StepAgrees(rules: Rules, s: State, e: Event)
    requires Agree(s) && Enabled(rules, e)
    ensures Agree(Step(rules, s, e))
  {
    hide Subsequence;
    match e
    case Commit(saved, f) =>
      CommitAllOrNothing(s, saved, f);
      Whole(saved.manifest);
    case Publish(item, f) =>
      if Attempts(rules, s, item) {
        var saved := Saved(s.durable.value.token, WithItem(s.durable.value.manifest, item));
        CommitAllOrNothing(s, saved, f);
        Whole(saved.manifest);
      }
    case Restore(p) =>
  }

  lemma {:induction false} ExecAgrees(rules: Rules, s: State, events: seq<Event>)
    requires Agree(s) && Exec(rules, s, events).Some?
    ensures Agree(Exec(rules, s, events).value)
    decreases |events|
  {
    hide Agree, Step, Enabled;
    if events != [] {
      StepAgrees(rules, s, events[0]);
      ExecAgrees(rules, Step(rules, s, events[0]), events[1..]);
    }
  }

  // A process that has just started over some saved pair, or none.
  function Started(durable: Option<Saved>): State { State(durable, None, None, false, 0) }

  // From a fresh process over any saved pair, the views agree after every run.
  lemma AlwaysAgree(rules: Rules, durable: Option<Saved>, events: seq<Event>)
    requires Exec(rules, Started(durable), events).Some?
    ensures Agree(Exec(rules, Started(durable), events).value)
  {
    ExecAgrees(rules, Started(durable), events);
  }

  /******* Status *******/

  function ActiveCount(s: State): nat { if s.active.Some? then |s.active.value| else 0 }

  function Unavailable(s: State): nat { if s.savedItemCount > ActiveCount(s) then s.savedItemCount - ActiveCount(s) else 0 }

  predicate Degraded(s: State) { ActiveCount(s) > 0 && Unavailable(s) > 0 }

  // The status reports degradation exactly when the runtime serves less than the saved manifest.
  lemma DegradedMeansLess(s: State)
    requires Agree(s) && s.active.Some?
    ensures Degraded(s) <==> s.active.value != s.durable.value.manifest
    ensures ActiveCount(s) + Unavailable(s) == |s.durable.value.manifest|
  {
    hide Subsequence;
    SubsequenceLength(s.active.value, s.durable.value.manifest);
  }

  // A degraded restore never takes away what is already active.
  lemma RestoreNeverShrinks(s: State, p: Preparation)
    requires Agree(s) && s.active.Some?
    ensures AfterRestore(s, p).active == s.active || AfterRestore(s, p).active == Some(s.durable.value.manifest)
  {
    hide Subsequence;
    if Restores(s, p) { SubsequenceLength(p.active.value, s.durable.value.manifest); }
  }

  /******* Acquired items *******/

  // The item is in, nothing it does not replace is lost or moved, and publishing it again changes nothing.
  lemma WithItemLaw(items: Manifest, c: Item)
    ensures c in WithItem(items, c)
    ensures |items| <= |WithItem(items, c)| <= |items| + 1
    ensures forall i | 0 <= i < |items| && !Replaces(items[i], c) :: WithItem(items, c)[i] == items[i]
    ensures WithItem(WithItem(items, c), c) == WithItem(items, c)
  {
    var i := FirstReplaced(items, c);
    var m := WithItem(items, c);
    assert m[i] == c && Replaces(c, c);
    assert forall j | 0 <= j < i :: m[j] == items[j];
    assert FirstReplaced(m, c) == i;
    assert m[i := c] == m;
  }

  // The same file, the same film, or the same episode.
  predicate Same(a: Item, b: Item)
  {
    || (a.provider == b.provider && a.objectID == b.objectID)
    || (a.mediaType == Movie && b.mediaType == Movie && a.title == b.title && a.year == b.year)
    || (a.mediaType == Episode && b.mediaType == Episode && a.showTitle == b.showTitle && a.year == b.year && a.season == b.season &&
        a.episode == b.episode)
  }

  // The first item that is the same gives its place to the new one; if none is, the new one comes last.
  lemma PlacedExactly(items: Manifest, c: Item)
    ensures (forall j | 0 <= j < |items| :: !Same(items[j], c)) ==> WithItem(items, c) == items + [c]
    ensures forall i | 0 <= i < |items| && Same(items[i], c) && (forall j | 0 <= j < i :: !Same(items[j], c)) :: WithItem(items, c) == items[i := c]
  {
    assert forall x :: Same(x, c) == Replaces(x, c);
  }

  // Films of one title and different years stay side by side, and so do different episodes of one show.
  lemma DistinctKept(items: Manifest, c: Item, i: nat)
    requires i < |items| && (items[i].provider != c.provider || items[i].objectID != c.objectID)
    requires items[i].mediaType != c.mediaType || items[i].year != c.year ||
             (if c.mediaType == Movie then items[i].title != c.title
              else items[i].showTitle != c.showTitle || items[i].season != c.season || items[i].episode != c.episode)
    ensures c in WithItem(items, c) && WithItem(items, c)[i] == items[i]
  {
    WithItemLaw(items, c);
  }

  /******* What a restore activates, and what is ever saved *******/

  // A preparation is activated exactly when there is a saved pair and it is a nonempty ordered part of it, ready and
  // published, and either the whole of it or nothing is active yet; otherwise the runtime stays as it is.
  lemma RestoreActivates(s: State, p: Preparation)
    ensures var s' := AfterRestore(s, p);
            if s.durable.Some? && p.load && p.active.Some? && p.active.value != [] && p.ready && p.publish &&
               Subsequence(p.active.value, s.durable.value.manifest) && (s.active.None? || p.active.value == s.durable.value.manifest)
            then s'.published == p.active && s'.active == p.active && s'.tokenConfigured && s'.savedItemCount == |s.durable.value.manifest|
            else s'.published == s.published && s'.active == s.active
    ensures AfterRestore(s, p).durable == s.durable
  {
    hide Subsequence;
    if s.durable.Some? && p.active.Some? { SubsequenceLength(p.active.value, s.durable.value.manifest); }
  }

  // One to a hundred good items, no two with the same file or the same path.
  ghost predicate Sane(rules: Rules, m: Manifest)
  {
    && 1 <= |m| <= 100 && (forall x | x in m :: rules.itemOk(x))
    && forall i, j | 0 <= i < j < |m| ::
         (m[i].provider != m[j].provider || m[i].objectID != m[j].objectID) && rules.path(m[i]) != rules.path(m[j])
  }

  lemma ValidIsSane(rules: Rules, m: Manifest)
    ensures ValidManifest(rules, m) <==> Sane(rules, m)
  {
    assert Sane(rules, m) ==> forall i | 0 <= i < |m| :: m[i] in m;
    assert forall i, j | 0 <= i < j < |m| :: !SameBacking(m[i], m[j]) <==> m[i].provider != m[j].provider || m[i].objectID != m[j].objectID;
  }

  // Whatever happens, what is saved is a sane manifest.
  lemma {:induction false} SavedStaysSane(rules: Rules, s: State, events: seq<Event>)
    requires s.durable.Some? ==> Sane(rules, s.durable.value.manifest)
    requires Exec(rules, s, events).Some?
    ensures Exec(rules, s, events).value.durable.Some? ==> Sane(rules, Exec(rules, s, events).value.durable.value.manifest)
    decreases |events|
  {
    hide Sane, ValidManifest, Restores;
    if events != [] {
      if events[0].Commit? { ValidIsSane(rules, events[0].saved.manifest); }
      if events[0].Publish? && s.durable.Some? { ValidIsSane(rules, WithItem(s.durable.value.manifest, events[0].item)); }
      SavedStaysSane(rules, Step(rules, s, events[0]), events[1..]);
    }
  }
}

/** The watchlist queue column by column: which row a claim takes and when, and what each transition does to a row. */
module WatchQueue {
  import opened Options
  import opened Sorting
  import opened WatchModel
  import opened WatchRepository
  import opened WatchRuns
  import JobModel
  import WatchSafety

  /******* Claims *******/

  // Acquisition is switched on, for shows also the pilot policy; the item is eligible and its time has come; it is
  // waiting, or is being acquired under a lease that has run out.
  predicate Due(q: Queue, row: Row, now: int)
  {
    && q.policy.enabled && row.autoEligible && (row.item.mediaType == Show ==> q.policy.pilot) && row.nextAttempt <= now
    && (match row.state
        case Pending => true
        case NotCached => true
        case Retryable => true
        case Acquiring => row.leaseUntil <= now
        case Succeeded => false
        case ManualReview => false)
  }

  // Expired leases first, the earliest expiry first; then by due time; among equals by first observation, then by name.
  predicate Sooner(i: Key, x: Row, j: Key, y: Row)
  {
    && (y.state == Acquiring ==> x.state == Acquiring)
    && (x.state == Acquiring && y.state == Acquiring ==> x.leaseUntil <= y.leaseUntil)
    && (x.state != Acquiring && y.state != Acquiring ==> x.nextAttempt <= y.nextAttempt)
    && (x.state == Acquiring && y.state == Acquiring && x.leaseUntil == y.leaseUntil ==> Older(i, x, j, y))
    && (x.state != Acquiring && y.state != Acquiring && x.nextAttempt == y.nextAttempt ==> Older(i, x, j, y))
  }

  predicate Older(i: Key, x: Row, j: Key, y: Row)
  {
    x.firstObserved <= y.firstObserved &&
    (x.firstObserved == y.firstObserved ==>
       StringLess(i.source, j.source) || (i.source == j.source && StringLess(i.externalID, j.externalID)))
  }

  lemma DueIff(q: Queue, row: Row, now: int)
    ensures Due(q, row, now) <==> Claimable(q, row, now)
  {
  }

  lemma {:induction false} LeastDue(q: Queue, now: int, keys: set<Key>) returns (k: Key)
    requires keys != {} && forall j | j in keys :: j in q.rows && Claimable(q, q.rows[j], now)
    ensures k in keys && forall j | j in keys && j != k :: Ahead(k, q.rows[k], j, q.rows[j])
    decreases |keys|
  {
    k :| k in keys;
    if keys != {k} {
      var least := LeastDue(q, now, keys - {k});
      AheadTotal(k, q.rows[k], least, q.rows[least]);
      if Ahead(least, q.rows[least], k, q.rows[k]) {
        k := least;
      } else {
        forall j | j in keys && j != k ensures Ahead(k, q.rows[k], j, q.rows[j]) {
          if j != least { AheadTransitive(k, q.rows[k], least, q.rows[least], j, q.rows[j]); }
        }
      }
    }
  }

  lemma SomeoneIff(q: Queue, now: int)
    ensures SomeoneInLine(q, now) <==> exists j :: j in q.rows && Due(q, q.rows[j], now)
  {
    hide Due, Claimable;
    forall j | j in q.rows ensures Due(q, q.rows[j], now) <==> Claimable(q, q.rows[j], now) { DueIff(q, q.rows[j], now); }
    if exists j :: j in q.rows && Due(q, q.rows[j], now) {
      var keys := set j | j in q.rows && Claimable(q, q.rows[j], now);
      var j :| j in q.rows && Due(q, q.rows[j], now);
      assert j in keys;
      var k := LeastDue(q, now, keys);
      assert FirstInLine(q, now, k);
    }
  }

  lemma FrontIsSoonest(q: Queue, now: int, k: Key)
    requires FirstInLine(q, now, k)
    ensures k in q.rows && Due(q, q.rows[k], now) && forall j | j in q.rows && Due(q, q.rows[j], now) && j != k :: Sooner(k, q.rows[k], j, q.rows[j])
  {
    DueIff(q, q.rows[k], now);
    forall j | j in q.rows && Due(q, q.rows[j], now) && j != k ensures Sooner(k, q.rows[k], j, q.rows[j]) { DueIff(q, q.rows[j], now); }
  }

  // The step leased exactly this row, the soonest of those due.
  ghost predicate Taken(w: World, s: System, now: nat, duration: int, k: Key)
  {
    var s' := LeaseStep(w, s, now, duration);
    && k in s.q.rows && Due(s.q, s.q.rows[k], now)
    && (forall j | j in s.q.rows && Due(s.q, s.q.rows[j], now) && j != k :: Sooner(k, s.q.rows[k], j, s.q.rows[j]))
    && s'.q == s.q.(rows := s.q.rows[k := s.q.rows[k].(state := Acquiring, attempt := s.q.rows[k].attempt + 1,
         leaseVersion := s.q.rows[k].leaseVersion + 1, leaseUntil := now + duration, updatedAt := now)])
  }

  // A claim takes a row exactly when some row is due, and then the soonest one.
  lemma LeaseLaw(w: World, s: System, now: nat, duration: int)
    ensures duration <= 0 || (forall j | j in s.q.rows :: !Due(s.q, s.q.rows[j], now)) ==>
              LeaseStep(w, s, now, duration).q == s.q && LeaseStep(w, s, now, duration).issued == s.issued
    ensures duration > 0 && (exists j :: j in s.q.rows && Due(s.q, s.q.rows[j], now)) ==> exists k :: Taken(w, s, now, duration, k)
  {
    hide FirstInLine, Due, Sooner, ValidObservation;
    SomeoneIff(s.q, now);
    if duration > 0 && exists j :: j in s.q.rows && Due(s.q, s.q.rows[j], now) {
      var k := Front(s.q, now);
      FrontIsSoonest(s.q, now, k);
      assert Taken(w, s, now, duration, k);
    }
  }

  // Nothing is claimed while acquisition is off, and no show without the pilot policy.
  lemma PolicyHolds(w: World, s: System, now: nat, duration: int)
    ensures !s.q.policy.enabled ==> LeaseStep(w, s, now, duration).q == s.q && LeaseStep(w, s, now, duration).issued == s.issued
    ensures !s.q.policy.pilot ==> forall k | k in s.q.rows && s.q.rows[k].item.mediaType == Show ::
              k in LeaseStep(w, s, now, duration).q.rows && LeaseStep(w, s, now, duration).q.rows[k] == s.q.rows[k]
  {
    hide FirstInLine, Sooner, ValidObservation;
    LeaseLaw(w, s, now, duration);
    if duration > 0 && exists j :: j in s.q.rows && Due(s.q, s.q.rows[j], now) {
      var k :| Taken(w, s, now, duration, k);
    }
  }

  // A row that is not due stays as it is, and gets no claim.
  lemma LeaseSkips(w: World, s: System, now: nat, duration: int, k: Key)
    requires k in s.q.rows && !Due(s.q, s.q.rows[k], now)
    ensures var s' := LeaseStep(w, s, now, duration); k in s'.q.rows && s'.q.rows[k] == s.q.rows[k]
  {
    hide FirstInLine, Due, Sooner, ValidObservation;
    LeaseLaw(w, s, now, duration);
    if duration > 0 && exists j :: j in s.q.rows && Due(s.q, s.q.rows[j], now) {
      var j :| Taken(w, s, now, duration, j);
    }
  }

  /******* Waiting for a time *******/

  // The item waits for a time, whatever is observed of it meanwhile.
  ghost predicate Waiting(s: System, k: Key, row: Row, t: int)
  {
    && k in s.q.rows && s.q.rows[k] == row.(item := s.q.rows[k].item, lastObserved := s.q.rows[k].lastObserved, updatedAt := s.q.rows[k].updatedAt)
    && row.nextAttempt == t && row.leaseUntil == 0 && row.state != Succeeded
  }

  lemma StepWaits(w: World, s: System, e: WatchRuns.Event, k: Key, row: Row, t: int)
    requires Waiting(s, k, row, t) && Enabled(w, s, e) && (e.Sync? || e.Lease? || e.Commit? || e.Move? ==> e.now < t)
    ensures Waiting(Step(w, s, e), k, row, t)
  {
    hide FirstInLine, ValidFrontier, Accepts, Upsert, Due, ClaimQueue, ClaimReply;
    match e
    case Sync(items, now) => StepRefreshes(w, s, items, now, k);
    case Restart =>
    case SetPolicy(_) =>
    case Lease(now, duration) =>
      NotDueYet(s.q, s.q.rows[k], now);
      LeaseSkips(w, s, now, duration, k);
    case Commit(c, cmd, now) =>
    case Move(_, _, _, _, _, _) =>
  }

  lemma NotDueYet(q: Queue, row: Row, now: int)
    requires row.nextAttempt > now
    ensures !Due(q, row, now)
  {
  }

  lemma StepRefreshes(w: World, s: System, items: seq<Item>, now: nat, k: Key)
    requires Enabled(w, s, Sync(items, now)) && k in s.q.rows
    ensures var s' := Step(w, s, Sync(items, now));
            k in s'.q.rows && s'.q.rows[k] == s.q.rows[k].(item := s'.q.rows[k].item, lastObserved := s'.q.rows[k].lastObserved, updatedAt := s'.q.rows[k].updatedAt)
  {
    hide Upsert;
    WatchSafety.SyncRefreshes(w, s, items, now);
  }

  lemma {:induction false} ExecWaits(w: World, s: System, events: seq<WatchRuns.Event>, k: Key, row: Row, t: int)
    requires Waiting(s, k, row, t) && Exec(w, s, events).Some?
    requires forall e | e in events && (e.Sync? || e.Lease? || e.Commit? || e.Move?) :: e.now < t
    ensures Waiting(Exec(w, s, events).value, k, row, t)
    decreases |events|
  {
    hide Step, Enabled, Waiting;
    if events != [] {
      assert events[0] in events;
      StepWaits(w, s, events[0], k, row, t);
      ExecWaits(w, Step(w, s, events[0]), events[1..], k, row, t);
    }
  }

  // After a transition that gave the lease back until t, nothing before t claims the item or moves its work on.
  lemma DeferredUntil(w: World, s: System, c: nat, cmd: Command, t: int, now: nat, events: seq<WatchRuns.Event>)
    requires Enabled(w, s, Commit(c, cmd, now)) && Commits(w.rules, s.q, s.issued[c], cmd, now)
    requires BackUntil(cmd) == Some(t)
    requires Exec(w, Step(w, s, Commit(c, cmd, now)), events).Some?
    requires forall e | e in events && (e.Sync? || e.Lease? || e.Commit? || e.Move?) :: e.now < t
    ensures var k := s.issued[c].item.key;
            var deferred, later := Step(w, s, Commit(c, cmd, now)), Exec(w, Step(w, s, Commit(c, cmd, now)), events).value;
            k in deferred.q.rows && Waiting(later, k, deferred.q.rows[k], t)
  {
    hide Exec;
    var k, deferred := s.issued[c].item.key, Step(w, s, Commit(c, cmd, now));
    assert Waiting(deferred, k, deferred.q.rows[k], t);
    ExecWaits(w, deferred, events, k, deferred.q.rows[k], t);
  }

  // When a transition asks to be looked at again.
  function BackUntil(cmd: Command): Option<int>
  {
    match cmd
    case Attach(_, next) => Some(next)
    case DeferJob(next) => Some(next)
    case Complete(Deferred(_, next)) => Some(next)
    case Complete(_) => None
  }

  /******* Transitions and moves *******/

  // What each committed transition found in the row, and what it left there.
  predicate Transition(rules: Rules, claim: Claim, row: Row, row': Row, cmd: Command, now: int)
  {
    && row.state == Acquiring && row.leaseVersion == claim.version && row.leaseUntil > now
    && match cmd
       case Attach(jobID, next) => row' == row.(nextAttempt := next, jobID := jobID, leaseUntil := 0, updatedAt := now)
       case DeferJob(next) => claim.jobID != "" && row' == row.(nextAttempt := next, jobID := claim.jobID, leaseUntil := 0, updatedAt := now)
       case Complete(Success(published)) =>
         && published != "" && rules.published(published)
         && row' == row.(state := Succeeded, published := published, jobID := "", nextAttempt := 0, leaseUntil := 0, updatedAt := now)
       case Complete(Deferred(state, next)) =>
         && (state == NotCached || state == Retryable)
         && row' == row.(state := state, published := "", jobID := "", nextAttempt := next, leaseUntil := 0, updatedAt := now)
       case Complete(Review) =>
         row' == row.(state := ManualReview, published := "", jobID := "", nextAttempt := 0, leaseUntil := 0, updatedAt := now)
  }

  lemma TransitionLaw(rules: Rules, q: Queue, claim: Claim, cmd: Command, now: int)
    ensures Commits(rules, q, claim, cmd, now) ==>
              var q', k := Transact(rules, q, claim, cmd, now), claim.item.key;
              k in q.rows && k in q'.rows && q' == q.(rows := q.rows[k := q'.rows[k]]) && Transition(rules, claim, q.rows[k], q'.rows[k], cmd, now)
    ensures !Commits(rules, q, claim, cmd, now) ==> Transact(rules, q, claim, cmd, now) == q
  {
    hide ValidClaim;
  }

  // A transition commits exactly when the claim and the command are well formed and the row is still leased to the claim.
  lemma CommitsExactly(rules: Rules, q: Queue, claim: Claim, cmd: Command, now: int)
    ensures Commits(rules, q, claim, cmd, now) <==>
            && rules.item(claim.item) && claim.version >= 1 && claim.attempt >= 1
            && (if claim.item.mediaType == Movie then claim.intent == Coord(0, 0)
                else 1 <= claim.intent.season <= 99 && 1 <= claim.intent.episode <= 999)
            && claim.item.key in q.rows && q.rows[claim.item.key].state == Acquiring
            && q.rows[claim.item.key].leaseVersion == claim.version && q.rows[claim.item.key].leaseUntil > now
            && match cmd
               case Attach(jobID, _) => HexID(jobID)
               case DeferJob(_) => HexID(claim.jobID)
               case Complete(Success(published)) => published != "" && rules.published(published)
               case Complete(Deferred(state, _)) => state == NotCached || state == Retryable
               case Complete(Review) => true
  {
    forall id ensures HexID(id) == JobModel.ValidID(id) { SameID(id); }
    hide HexID, JobModel.ValidID;
  }

  predicate HexID(id: string) { |id| == 32 && forall c | c in id :: c in "0123456789abcdef" }

  lemma SameID(id: string)
    ensures HexID(id) == JobModel.ValidID(id)
  {
    assert forall x: char :: x in "0123456789abcdef" <==> '0' <= x <= '9' || 'a' <= x <= 'f';
    assert forall i | 0 <= i < |id| :: id[i] in id;
  }

  // A frontier moves exactly if the show is followed, eligible, published at that very object and episode, and seen
  // recently, and the next episode is a later one; the row then waits for the next episode, with its version kept.
  lemma MoveLaw(rules: Rules, q: Queue, k: Key, objectID: string, current: Coord, next: Coord, observedAfter: int, now: int)
    ensures var moves :=
              && rules.item(Item(k, Show, "Episode frontier", 2026)) && objectID != "" && rules.published(objectID)
              && 1 <= current.season <= 99 && 1 <= current.episode <= 999 && 1 <= next.season <= 99 && 1 <= next.episode <= 999
              && k in q.rows && q.policy.enabled && q.policy.pilot && q.rows[k].item.mediaType == Show && q.rows[k].state == Succeeded
              && q.rows[k].autoEligible && q.rows[k].published == objectID && q.rows[k].intent == current
              && q.rows[k].lastObserved >= observedAfter
              && (next.season > current.season || (next.season == current.season && next.episode > current.episode));
            Advance(rules, q, k, objectID, current, next, observedAfter, now) ==
            if moves then q.(rows := q.rows[k := q.rows[k].(state := Pending, attempt := 0, leaseUntil := 0, nextAttempt := 0,
                                                            published := "", jobID := "", intent := next, updatedAt := now)]) else q
  {
  }

  /******* Observations *******/

  // One of the items has the key.
  ghost predicate Among(items: seq<Item>, k: Key) { exists i :: 0 <= i < |items| && items[i].key == k }

  // What a sync leaves under a key: an item not seen leaves its row alone; a known one is refreshed; a new one waits,
  // due at once, eligible if a baseline came before and the policy follows its kind.
  ghost predicate Synced(w: World, before: map<Key, Row>, after: map<Key, Row>, baseline: bool, policy: Policy, items: seq<Item>, now: int, k: Key)
  {
    if !Among(items, k) then (k in after <==> k in before) && (k in before ==> after[k] == before[k])
    else
      && k in after && after[k].item in items && after[k].item.key == k && after[k].lastObserved == now && after[k].updatedAt == now
      && if k in before then after[k] == before[k].(item := after[k].item, lastObserved := now, updatedAt := now)
         else Fresh(after[k], baseline && policy.enabled && (w.kind(k) == Movie || policy.pilot), w.kind(k), now)
  }

  predicate Fresh(row: Row, eligible: bool, kind: MediaType, now: int)
  {
    && row.state == Pending && row.attempt == 0 && row.leaseVersion == 0 && row.leaseUntil == 0 && row.nextAttempt == 0
    && row.published == "" && row.jobID == "" && row.firstObserved == now && row.autoEligible == eligible
    && row.intent == if eligible && kind == Show then Coord(1, 1) else Coord(0, 0)
  }

  lemma {:induction false} ObservedExactly(w: World, before: map<Key, Row>, baseline: bool, policy: Policy, items: seq<Item>, now: int, k: Key)
    requires forall x | x in items :: x.mediaType == w.kind(x.key)
    ensures Synced(w, before, ObserveAll(before, ObservedAll(baseline, policy, items), now), baseline, policy, items, now, k)
  {
    hide Synced, Observe;
    if items == [] {
      SyncedNone(w, before, baseline, policy, now, k);
    } else {
      var head, last := items[..|items| - 1], items[|items| - 1];
      ObservedExactly(w, before, baseline, policy, head, now, k);
      assert ObservedAll(baseline, policy, items)[..|items| - 1] == ObservedAll(baseline, policy, head);
      assert items == head + [last] && last in items;
      SyncedNext(w, before, ObserveAll(before, ObservedAll(baseline, policy, head), now), baseline, policy, head, last, now, k);
    }
  }

  lemma SyncedNone(w: World, before: map<Key, Row>, baseline: bool, policy: Policy, now: int, k: Key)
    ensures Synced(w, before, before, baseline, policy, [], now, k)
  {
  }

  lemma SyncedNext(w: World, before: map<Key, Row>, mid: map<Key, Row>, baseline: bool, policy: Policy, head: seq<Item>, last: Item, now: int, k: Key)
    requires Synced(w, before, mid, baseline, policy, head, now, k) && last.mediaType == w.kind(last.key)
    ensures Synced(w, before, Observe(mid, Observed(baseline, policy, last), now), baseline, policy, head + [last], now, k)
  {
    hide Among;
    AmongNext(head, last, k);
  }

  lemma AmongNext(items: seq<Item>, last: Item, k: Key)
    ensures Among(items + [last], k) <==> Among(items, k) || last.key == k
  {
    assert (items + [last])[|items|] == last;
    if Among(items, k) {
      var i :| 0 <= i < |items| && items[i].key == k;
      assert (items + [last])[i].key == k;
    }
  }

  lemma SyncExactly(w: World, s: System, items: seq<Item>, now: nat, k: Key)
    requires Enabled(w, s, Sync(items, now))
    ensures Synced(w, s.q.rows, Step(w, s, Sync(items, now)).q.rows, s.baseline, s.q.policy, items, now, k)
  {
    hide Synced, ObserveAll;
    ObservedValid(w.rules, s.baseline, s.q.policy, items);
    ObservedExactly(w, s.q.rows, s.baseline, s.q.policy, items, now, k);
  }
}

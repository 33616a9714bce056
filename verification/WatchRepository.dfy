/** The watchlist repository and the observer that feeds it. */
module WatchRepository {
  import opened Options
  import opened WatchModel

  class Repository {
    const rules: Rules
    var rows: map<Key, Row>
    var policy: Policy

    constructor (rules: Rules)
      ensures this.rules == rules && View() == Queue(map[], Policy(false, false))
    {
      this.rules := rules;
      rows, policy := map[], Policy(false, false);
    }

    function View(): Queue
      reads this
    {
      Queue(rows, policy)
    }

    method SetPolicy(policy: Policy)
      modifies this`policy
      ensures View() == old(View()).(policy := policy)
    {
      this.policy := policy;
    }

    // All observations are checked first; then one upsert each, in one transaction.
    method UpsertObservations(observations: seq<Observation>, now: int) returns (ok: bool)
      modifies this`rows
      ensures View() == Upsert(rules, old(View()), observations, now)
      ensures ok <==> forall o | o in observations :: ValidObservation(rules, o)
    {
      for i := 0 to |observations|
        invariant forall o | o in observations[..i] :: ValidObservation(rules, o)
      {
        assert observations[..i + 1] == observations[..i] + [observations[i]];
        if !ValidObservation(rules, observations[i]) { return false; }
      }
      assert observations[..|observations|] == observations;
      var updated := rows;
      for i := 0 to |observations|
        invariant updated == ObserveAll(rows, observations[..i], now)
      {
        assert observations[..i + 1][..i] == observations[..i];
        updated := Observe(updated, observations[i], now);
      }
      rows := updated;
      ok := true;
    }

    method Earliest(now: int) returns (first: Option<Key>)
      ensures first.None? <==> forall k | k in rows :: !Claimable(View(), rows[k], now)
      ensures first.Some? ==> FirstInLine(View(), now, first.value)
    {
      first := None;
      var left := rows.Keys;
      while left != {}
        invariant left <= rows.Keys
        invariant first.None? ==> forall k | k in rows && k !in left :: !Claimable(View(), rows[k], now)
        invariant first.Some? ==> first.value in rows && first.value !in left && Claimable(View(), rows[first.value], now)
        invariant first.Some? ==> forall k | k in rows && k !in left && Claimable(View(), rows[k], now) && k != first.value ::
                    Ahead(first.value, rows[first.value], k, rows[k])
        decreases left
      {
        var j :| j in left;
        left := left - {j};
        if Claimable(View(), rows[j], now) {
          if first.None? {
            first := Some(j);
          } else {
            AheadTotal(first.value, rows[first.value], j, rows[j]);
            if Ahead(j, rows[j], first.value, rows[first.value]) {
              forall k | k in rows && k !in left && Claimable(View(), rows[k], now) && k != j ensures Ahead(j, rows[j], k, rows[k]) {
                if k != first.value { AheadTransitive(j, rows[j], first.value, rows[first.value], k, rows[k]); }
              }
              first := Some(j);
            }
          }
        }
      }
    }

    method Claim(now: int, duration: int) returns (r: Claimed)
      modifies this`rows
      ensures View() == ClaimQueue(old(View()), now, duration)
      ensures r == ClaimReply(rules, old(View()), now, duration)
    {
      if duration <= 0 { return BadDuration; }
      var first := Earliest(now);
      if first.None? { return Nothing; }
      FirstUnique(View(), now, first.value, Front(View(), now));
      var row := Leased(rows[first.value], now, duration);
      rows := rows[first.value := row];
      var claim := ClaimOf(rules, row);
      r := if claim.Some? then Got(claim.value) else Unloadable;
    }

    // The guarded update behind AttachJob, DeferJob and Complete.
    method Transition(claim: WatchModel.Claim, cmd: Command, now: int) returns (done: bool)
      modifies this`rows
      ensures View() == Transact(rules, old(View()), claim, cmd, now)
      ensures done <==> Commits(rules, old(View()), claim, cmd, now)
    {
      done := Accepts(rules, claim, cmd) && Holding(View(), claim, now);
      if done {
        var key := claim.item.key;
        rows := rows[key := Written(rows[key], claim, cmd).(leaseUntil := 0, updatedAt := now)];
      }
    }

    method CanAdvanceEpisode(key: Key, published: string, current: Coord, observedAfter: int) returns (ok: bool)
      ensures ok <==> ValidFrontier(rules, key, published, current) && AtFrontier(View(), key, published, current, observedAfter)
    {
      ok := ValidFrontier(rules, key, published, current) && AtFrontier(View(), key, published, current, observedAfter);
    }

    method AdvanceEpisode(key: Key, published: string, current: Coord, next: Coord, observedAfter: int, now: int) returns (done: bool)
      modifies this`rows
      ensures View() == Advance(rules, old(View()), key, published, current, next, observedAfter, now)
      ensures done <==> Advances(rules, old(View()), key, published, current, next, observedAfter)
    {
      if !ValidFrontier(rules, key, published, current) || !ValidCoord(next) || !Later(next, current) { return false; }
      if !AtFrontier(View(), key, published, current, observedAfter) { return false; }
      rows := rows[key := rows[key].(state := Pending, attempt := 0, leaseUntil := 0, nextAttempt := 0,
                                     published := "", jobID := "", intent := next, updatedAt := now)];
      done := true;
    }
  }

  /******* The observer *******/

  // What a sync records about an item: only after a baseline sync may a new item be acquired automatically.
  function Observed(baseline: bool, policy: Policy, item: Item): Observation
  {
    var eligible := baseline && policy.enabled && (item.mediaType == Show ==> policy.pilot);
    Observation(item, eligible, if item.mediaType == Show && eligible then Pilot else NoEpisode)
  }

  function ObservedAll(baseline: bool, policy: Policy, items: seq<Item>): seq<Observation>
  {
    seq(|items|, i requires 0 <= i < |items| => Observed(baseline, policy, items[i]))
  }

  class Observer {
    const queue: Repository
    var healthy: bool
    var lastSyncAt: Option<int>
    var baselineComplete: bool

    constructor (queue: Repository)
      ensures this.queue == queue && !healthy && lastSyncAt == None && !baselineComplete
    {
      this.queue := queue;
      healthy, lastSyncAt, baselineComplete := false, None, false;
    }

    // snapshot is None when the gateway or the database fails; a failed sync changes the health flag alone.
    method Sync(snapshot: Option<seq<Item>>, now: int) returns (ok: bool)
      modifies this, queue`rows
      ensures ok <==> snapshot.Some? && forall x | x in snapshot.value :: queue.rules.item(x)
      ensures healthy == ok
      ensures ok ==> lastSyncAt == Some(now) && baselineComplete
      ensures ok ==> queue.View() == Upsert(queue.rules, old(queue.View()), ObservedAll(old(baselineComplete), queue.policy, snapshot.value), now)
      ensures !ok ==> queue.View() == old(queue.View()) && lastSyncAt == old(lastSyncAt) && baselineComplete == old(baselineComplete)
    {
      if snapshot.None? { healthy := false; return false; }
      var items, policy, baseline := snapshot.value, queue.policy, baselineComplete;
      var observations: seq<Observation> := [];
      for i := 0 to |items|
        invariant observations == ObservedAll(baseline, policy, items[..i])
        invariant forall x | x in items[..i] :: queue.rules.item(x)
        invariant unchanged(queue) && lastSyncAt == old(lastSyncAt) && baselineComplete == old(baselineComplete)
      {
        var autoEligible := baseline && policy.enabled;
        var intent := NoEpisode;
        if items[i].mediaType == Show {
          autoEligible := autoEligible && policy.pilot;
          if autoEligible { intent := Pilot; }
        }
        var o := Observation(items[i], autoEligible, intent);
        if !ValidObservation(queue.rules, o) { healthy := false; assert items[i] in items; return false; }
        assert items[..i + 1] == items[..i] + [items[i]];
        observations := observations + [o];
      }
      assert items[..|items|] == items;
      ObservedValid(queue.rules, baseline, policy, items);
      ok := queue.UpsertObservations(observations, now);
      healthy, lastSyncAt, baselineComplete := true, Some(now), true;
    }
  }

  lemma ObservedValid(rules: Rules, baseline: bool, policy: Policy, items: seq<Item>)
    requires forall x | x in items :: rules.item(x)
    ensures forall o | o in ObservedAll(baseline, policy, items) :: ValidObservation(rules, o)
  {
  }
}

/** The watchlist queue's guarantees over every run. */
module WatchSafety {
  import opened Options
  import opened WatchModel
  import opened WatchRepository
  import opened WatchRuns

  /******* Observations *******/

  // An upsert only adds ineligible or pilot rows, and only refreshes the rest.
  ghost predicate Refreshed(w: World, before: map<Key, Row>, after: map<Key, Row>)
  {
    && before.Keys <= after.Keys
    && (forall k | k in before :: after[k] == before[k].(item := after[k].item, lastObserved := after[k].lastObserved, updatedAt := after[k].updatedAt))
    && (forall k | k in before && before[k].item.key == k && before[k].item.mediaType == w.kind(k) ::
          after[k].item.key == k && after[k].item.mediaType == w.kind(k))
    && (forall k | k in after && k !in before :: NewRow(w, k, after[k]))
  }

  ghost predicate NewRow(w: World, k: Key, row: Row)
  {
    && row.item.key == k && row.item.mediaType == w.kind(k) && row.state == Pending && row.leaseVersion == 0 && row.leaseUntil == 0
    && row.intent == if row.item.mediaType == Show && row.autoEligible then Pilot else NoEpisode
  }

  lemma ObserveRefreshes(w: World, before: map<Key, Row>, rows: map<Key, Row>, o: Observation, now: nat)
    requires Refreshed(w, before, rows) && o.item.mediaType == w.kind(o.item.key)
    requires o.intent == if o.item.mediaType == Show && o.autoEligible then Pilot else NoEpisode
    ensures Refreshed(w, before, Observe(rows, o, now))
  {
  }

  lemma {:induction false} ObserveAllRefreshes(w: World, rows: map<Key, Row>, observations: seq<Observation>, now: nat)
    requires forall o | o in observations :: o.item.mediaType == w.kind(o.item.key)
    requires forall o | o in observations :: o.intent == if o.item.mediaType == Show && o.autoEligible then Pilot else NoEpisode
    ensures Refreshed(w, rows, ObserveAll(rows, observations, now))
  {
    if observations != [] {
      hide Refreshed, Observe;
      var last := observations[|observations| - 1];
      assert last in observations;
      ObserveAllRefreshes(w, rows, observations[..|observations| - 1], now);
      ObserveRefreshes(w, rows, ObserveAll(rows, observations[..|observations| - 1], now), last, now);
    }
  }

  lemma SyncRefreshes(w: World, s: System, items: seq<Item>, now: nat)
    requires Enabled(w, s, Sync(items, now))
    ensures Refreshed(w, s.q.rows, Step(w, s, Sync(items, now)).q.rows)
    ensures Step(w, s, Sync(items, now)).q.policy == s.q.policy
  {
    hide Refreshed, Observe, ObserveAll;
    var observations := ObservedAll(s.baseline, s.q.policy, items);
    ObservedValid(w.rules, s.baseline, s.q.policy, items);
    ObserveAllRefreshes(w, s.q.rows, observations, now);
  }

  lemma SyncKeeps(w: World, s: System, items: seq<Item>, now: nat)
    requires Inv(w, s) && Enabled(w, s, Sync(items, now))
    ensures Inv(w, Step(w, s, Sync(items, now)))
  {
    hide ObserveAll, Upsert, Enabled, Frontier, Publications, Consumed, Forward, Refreshed, RowsOk, ClaimsOk, Fenced;
    SyncRefreshes(w, s, items, now);
    var s' := Step(w, s, Sync(items, now));
    RefreshedRows(w, s, s');
    RefreshedClaims(w, s, s');
  }

  lemma RefreshedRows(w: World, s: System, s': System)
    requires RowsOk(w, s) && Refreshed(w, s.q.rows, s'.q.rows) && s'.log == s.log
    ensures RowsOk(w, s')
  {
    hide Frontier, Publications, Consumed;
    forall k | k in s'.q.rows ensures RowOk(w, s'.log, k, s'.q.rows[k]) && Balanced(s'.log, k, s'.q.rows[k]) {
      if k in s.q.rows { assert RowOk(w, s.log, k, s.q.rows[k]) && Balanced(s.log, k, s.q.rows[k]); }
      else { Unlogged(s.log, k); assert NewRow(w, k, s'.q.rows[k]); }
    }
  }

  lemma {:induction false} Unlogged(log: seq<LogEntry>, k: Key)
    requires forall e | 0 <= e < |log| :: log[e].key != k
    ensures Frontier(log, k) == Pilot && Publications(log, k) == [] && Consumed(log, k) == []
  {
    if log != [] { Unlogged(log[..|log| - 1], k); }
  }

  lemma RefreshedClaims(w: World, s: System, s': System)
    requires ClaimsOk(s) && Fenced(s) && Refreshed(w, s.q.rows, s'.q.rows) && s'.issued == s.issued && s'.spent == s.spent
    ensures ClaimsOk(s') && Fenced(s')
  {
    assert forall c | 0 <= c < |s.issued| :: Current(s', c) == Current(s, c);
  }

  /******* Claims *******/

  lemma LeaseKeeps(w: World, s: System, now: nat, duration: int)
    requires Inv(w, s) && Enabled(w, s, Lease(now, duration))
    ensures Inv(w, Step(w, s, Lease(now, duration)))
  {
    hide RowsOk, ClaimsOk, Fenced, Forward, FirstInLine, ValidObservation, RowOk;
    var s' := Step(w, s, Lease(now, duration));
    if duration > 0 && SomeoneInLine(s.q, now) {
      var k := Front(s.q, now);
      var row := Leased(s.q.rows[k], now, duration);
      FrontClaimable(s.q, now, k);
      LeaseRows(w, s, s', k, row);
      LeaseClaims(w, s, s', k, row);
    } else {
      assert s' == s.(clock := now);
      SameRows(w, s, s');
    }
  }

  lemma FrontClaimable(q: Queue, now: int, k: Key)
    requires FirstInLine(q, now, k)
    ensures k in q.rows && Claimable(q, q.rows[k], now)
  {
  }

  lemma SameRows(w: World, s: System, s': System)
    requires Inv(w, s) && s'.q.rows == s.q.rows && s'.issued == s.issued && s'.spent == s.spent && s'.log == s.log
    ensures Inv(w, s')
  {
    hide RowOk, Balanced, Forward;
    assert forall c | 0 <= c < |s.issued| :: Current(s', c) == Current(s, c);
  }

  lemma LeaseRows(w: World, s: System, s': System, k: Key, row: Row)
    requires RowsOk(w, s) && k in s.q.rows && s.q.rows[k].autoEligible && s.q.rows[k].state != Succeeded
    requires row == s.q.rows[k].(state := Acquiring, attempt := row.attempt, leaseVersion := s.q.rows[k].leaseVersion + 1,
                                 leaseUntil := row.leaseUntil, updatedAt := row.updatedAt)
    requires s'.q.rows == s.q.rows[k := row] && s'.log == s.log
    ensures RowsOk(w, s')
  {
    hide Frontier, Publications, Consumed;
    assert RowOk(w, s.log, k, s.q.rows[k]) && Balanced(s.log, k, s.q.rows[k]);
  }

  lemma LeaseClaims(w: World, s: System, s': System, k: Key, row: Row)
    requires RowsOk(w, s) && ClaimsOk(s) && Fenced(s) && SpentOk(s) && k in s.q.rows && row.leaseVersion == s.q.rows[k].leaseVersion + 1
    requires row.item == s.q.rows[k].item
    requires s'.q.rows == s.q.rows[k := row] && s'.spent == s.spent
    requires s'.issued == s.issued || (exists claim :: s'.issued == s.issued + [claim] && ClaimOf(w.rules, row) == Some(claim))
    ensures ClaimsOk(s') && Fenced(s') && SpentOk(s')
  {
    hide Frontier, Publications, Consumed, ValidObservation;
    assert RowOk(w, s.log, k, s.q.rows[k]);
    forall c | 0 <= c < |s.issued| ensures Current(s', c) ==> s.issued[c].item.key != k && Current(s, c) {}
    if s'.issued != s.issued {
      var claim :| s'.issued == s.issued + [claim] && ClaimOf(w.rules, row) == Some(claim);
      assert claim.item.key == k && claim.version == row.leaseVersion && claim.intent == row.intent;
    }
  }

  /******* Transitions *******/

  lemma CommitKeeps(w: World, s: System, c: nat, cmd: Command, now: nat)
    requires Inv(w, s) && Enabled(w, s, Commit(c, cmd, now))
    ensures Inv(w, Step(w, s, Commit(c, cmd, now)))
  {
    hide RowsOk, ClaimsOk, Fenced, Forward, Accepts, RowOk, SpentOk;
    var s' := Step(w, s, Commit(c, cmd, now));
    if Commits(w.rules, s.q, s.issued[c], cmd, now) {
      CommitRows(w, s, c, cmd, now);
      CommitClaims(w, s, c, cmd, now);
      CommitForward(w, s, c, cmd, now);
    } else {
      SameRows(w, s, s');
    }
  }

  lemma CommitRows(w: World, s: System, c: nat, cmd: Command, now: nat)
    requires RowsOk(w, s) && c < |s.issued| && Commits(w.rules, s.q, s.issued[c], cmd, now)
    ensures RowsOk(w, CommitStep(w, s, c, cmd, now))
  {
    hide Frontier, Publications, Consumed, Accepts;
    var s', k := CommitStep(w, s, c, cmd, now), s.issued[c].item.key;
    assert RowOk(w, s.log, k, s.q.rows[k]) && Balanced(s.log, k, s.q.rows[k]);
    assert |s'.log| > |s.log| ==> s'.log == s.log + [s'.log[|s.log|]];
    assert Deferring(cmd) by { DeferredStates(w, s.issued[c], cmd); }
    forall j | j in s'.q.rows ensures RowOk(w, s'.log, j, s'.q.rows[j]) && Balanced(s'.log, j, s'.q.rows[j]) {
      assert RowOk(w, s.log, j, s.q.rows[j]) && Balanced(s.log, j, s.q.rows[j]);
      if |s'.log| > |s.log| { OneMore(s.log, s'.log[|s.log|], j); }
    }
  }

  predicate Deferring(cmd: Command)
  {
    cmd.Complete? && cmd.completion.Deferred? ==> cmd.completion.state == NotCached || cmd.completion.state == Retryable
  }

  lemma DeferredStates(w: World, claim: Claim, cmd: Command)
    requires Accepts(w.rules, claim, cmd)
    ensures Deferring(cmd)
  {
    hide ValidClaim;
  }

  // What one more entry does to an item's history.
  ghost predicate Logging(log: seq<LogEntry>, e: LogEntry, k: Key)
  {
    && Frontier(log + [e], k) == (if e.Moved? && e.key == k then e.next else Frontier(log, k))
    && Publications(log + [e], k) == Publications(log, k) + (if e.Published? && e.key == k then [(e.at, e.objectID)] else [])
    && Consumed(log + [e], k) == Consumed(log, k) + (if e.Moved? && e.key == k then [(e.at, e.objectID)] else [])
  }

  lemma OneMore(log: seq<LogEntry>, e: LogEntry, k: Key)
    ensures Logging(log, e, k)
  {
    assert (log + [e])[..|log|] == log;
  }

  lemma CommitClaims(w: World, s: System, c: nat, cmd: Command, now: nat)
    requires ClaimsOk(s) && Fenced(s) && SpentOk(s) && c < |s.issued| && Commits(w.rules, s.q, s.issued[c], cmd, now)
    ensures var s' := CommitStep(w, s, c, cmd, now); ClaimsOk(s') && Fenced(s') && SpentOk(s')
  {
    hide Accepts;
    var s', k := CommitStep(w, s, c, cmd, now), s.issued[c].item.key;
    assert s'.q.rows == s.q.rows[k := s'.q.rows[k]];
    assert s'.q.rows[k].leaseVersion == s.q.rows[k].leaseVersion && s'.q.rows[k].intent == s.q.rows[k].intent;
    assert forall d | 0 <= d < |s.issued| :: Current(s', d) == Current(s, d);
  }

  lemma CommitForward(w: World, s: System, c: nat, cmd: Command, now: nat)
    requires Forward(s.log) && c < |s.issued|
    ensures Forward(CommitStep(w, s, c, cmd, now).log)
  {
    hide Frontier, Commits;
    var log := CommitStep(w, s, c, cmd, now).log;
    assert forall i | 0 <= i < |s.log| :: log[i] == s.log[i] && log[..i] == s.log[..i];
  }

  /******* Moves *******/

  lemma MoveKeeps(w: World, s: System, e: Event)
    requires e.Move? && Inv(w, s) && Enabled(w, s, e)
    ensures Inv(w, Step(w, s, e))
  {
    hide RowsOk, ClaimsOk, Fenced, Forward, ValidFrontier, RowOk, SpentOk;
    var s' := Step(w, s, e);
    if Advances(w.rules, s.q, e.key, e.objectID, e.current, e.next, e.observedAfter) {
      MoveRows(w, s, e);
      MoveClaims(w, s, e);
      MoveForward(w, s, e);
    } else {
      SameRows(w, s, s');
    }
  }

  lemma MoveRows(w: World, s: System, e: Event)
    requires e.Move? && RowsOk(w, s) && Advances(w.rules, s.q, e.key, e.objectID, e.current, e.next, e.observedAfter)
    ensures RowsOk(w, MoveStep(w, s, e))
  {
    hide Frontier, Publications, Consumed, ValidFrontier;
    var s', k := MoveStep(w, s, e), e.key;
    assert s'.log == s.log + [s'.log[|s.log|]];
    forall j | j in s'.q.rows ensures RowOk(w, s'.log, j, s'.q.rows[j]) && Balanced(s'.log, j, s'.q.rows[j]) {
      assert RowOk(w, s.log, j, s.q.rows[j]) && Balanced(s.log, j, s.q.rows[j]);
      OneMore(s.log, s'.log[|s.log|], j);
    }
  }

  lemma MoveClaims(w: World, s: System, e: Event)
    requires e.Move? && ClaimsOk(s) && Fenced(s) && SpentOk(s)
    requires Advances(w.rules, s.q, e.key, e.objectID, e.current, e.next, e.observedAfter)
    ensures var s' := MoveStep(w, s, e); ClaimsOk(s') && Fenced(s') && SpentOk(s')
  {
    hide ValidFrontier;
    var s' := MoveStep(w, s, e);
    assert forall d | 0 <= d < |s.issued| :: Current(s', d) == Current(s, d);
  }

  lemma MoveForward(w: World, s: System, e: Event)
    requires e.Move? && Forward(s.log) && RowsOk(w, s)
    requires Advances(w.rules, s.q, e.key, e.objectID, e.current, e.next, e.observedAfter)
    ensures Forward(MoveStep(w, s, e).log)
  {
    hide Frontier, Balanced, ValidFrontier;
    var log := MoveStep(w, s, e).log;
    assert RowOk(w, s.log, e.key, s.q.rows[e.key]);
    assert forall i | 0 <= i < |s.log| :: log[i] == s.log[i] && log[..i] == s.log[..i];
    assert log[..|s.log|] == s.log;
  }

  /******* Whole runs *******/

  lemma StepKeeps(w: World, s: System, e: Event)
    requires Inv(w, s) && Enabled(w, s, e)
    ensures Inv(w, Step(w, s, e))
  {
    match e
    case Sync(items, now) => hide Inv, Step, Enabled; SyncKeeps(w, s, items, now);
    case Restart => hide Inv; SameRows(w, s, Step(w, s, e));
    case SetPolicy(_) => hide Inv; SameRows(w, s, Step(w, s, e));
    case Lease(now, duration) => hide Inv, Step, Enabled; LeaseKeeps(w, s, now, duration);
    case Commit(c, cmd, now) => hide Inv, Step, Enabled; CommitKeeps(w, s, c, cmd, now);
    case Move(_, _, _, _, _, _) => hide Inv, Step, Enabled; MoveKeeps(w, s, e);
  }

  lemma {:induction false} ExecKeeps(w: World, s: System, events: seq<Event>)
    requires Inv(w, s) && Exec(w, s, events).Some?
    ensures Inv(w, Exec(w, s, events).value)
    decreases |events|
  {
    hide Inv, Step, Enabled;
    if events != [] {
      StepKeeps(w, s, events[0]);
      ExecKeeps(w, Step(w, s, events[0]), events[1..]);
    }
  }

  lemma AlwaysInv(w: World, s: System)
    requires Reachable(w, s)
    ensures Inv(w, s)
  {
    var events :| Exec(w, Empty, events) == Some(s);
    ExecKeeps(w, Empty, events);
  }
}

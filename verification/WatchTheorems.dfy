/** The episode frontier: what every run of the watchlist queue guarantees. */
module WatchTheorems {
  import opened Options
  import opened WatchModel
  import opened WatchRepository
  import opened WatchRuns
  import opened WatchSafety

  // A show stands at (0, 0), or where its moves from (1, 1) have led; each move was to a later episode.
  lemma ShowIntent(w: World, s: System, k: Key)
    requires Reachable(w, s) && k in s.q.rows && w.kind(k) == Show
    ensures s.q.rows[k].intent == if s.q.rows[k].autoEligible then Frontier(s.log, k) else NoEpisode
    ensures Forward(s.log)
  {
    hide Reachable, ClaimsOk, Fenced, Forward, Frontier, Balanced;
    AlwaysInv(w, s);
    assert RowOk(w, s.log, k, s.q.rows[k]);
  }

  // Every move used up exactly one publication, of the very episode it left; at most one is not yet used.
  lemma OnePublicationPerMove(w: World, s: System, k: Key)
    requires Reachable(w, s) && k in s.q.rows
    ensures Consumed(s.log, k) <= Publications(s.log, k)
    ensures Publications(s.log, k)[|Consumed(s.log, k)|..] ==
            if s.q.rows[k].state == Succeeded then [(s.q.rows[k].intent, s.q.rows[k].published)] else []
  {
    hide Reachable, ClaimsOk, Fenced, Forward, RowOk, Publications, Consumed;
    AlwaysInv(w, s);
    assert Balanced(s.log, k, s.q.rows[k]);
  }

  // A claim commits only for the episode it was taken for, and only once.
  lemma ClaimCompletesItsOwnEpisode(w: World, s: System, c: nat, cmd: Command, now: nat)
    requires Reachable(w, s) && c < |s.issued| && now >= s.clock && Commits(w.rules, s.q, s.issued[c], cmd, now)
    ensures s.q.rows[s.issued[c].item.key].intent == s.issued[c].intent && c !in s.spent
    ensures forall d | 0 <= d < |s.issued| && d != c && s.issued[d].item.key == s.issued[c].item.key :: !Holding(s.q, s.issued[d], now)
  {
    hide Reachable, RowsOk, Forward, Accepts;
    AlwaysInv(w, s);
    assert Current(s, c);
  }

  /******* Later states *******/

  // One step keeps eligibility, and an intent stays or moves to a later episode of an eligible show.
  ghost predicate Onward(a: Row, b: Row)
  {
    && b.autoEligible == a.autoEligible
    && (b.intent == a.intent ||
        (a.autoEligible && (b.intent.season > a.intent.season || (b.intent.season == a.intent.season && b.intent.episode > a.intent.episode))))
  }

  lemma StepOnward(w: World, s: System, e: Event, k: Key)
    requires Enabled(w, s, e) && k in s.q.rows
    ensures k in Step(w, s, e).q.rows && Onward(s.q.rows[k], Step(w, s, e).q.rows[k])
  {
    hide ValidFrontier, Accepts, Upsert, FirstInLine;
    match e
    case Sync(items, now) => SyncRefreshes(w, s, items, now);
    case Restart =>
    case SetPolicy(_) =>
    case Lease(now, duration) =>
    case Commit(c, cmd, now) =>
    case Move(_, _, _, _, _, _) =>
  }

  lemma OnwardTransitive(a: Row, b: Row, c: Row)
    requires Onward(a, b) && Onward(b, c)
    ensures Onward(a, c)
  {
  }

  lemma {:induction false} IntentOnlyGrows(w: World, s: System, events: seq<Event>, k: Key)
    requires Exec(w, s, events).Some? && k in s.q.rows
    ensures var s' := Exec(w, s, events).value; k in s'.q.rows && Onward(s.q.rows[k], s'.q.rows[k])
    decreases |events|
  {
    hide Step, Enabled, Onward;
    if events == [] {
      assert Onward(s.q.rows[k], s.q.rows[k]) by { Stays(s.q.rows[k]); }
    } else {
      var mid := Step(w, s, events[0]);
      StepOnward(w, s, events[0], k);
      IntentOnlyGrows(w, mid, events[1..], k);
      OnwardTransitive(s.q.rows[k], mid.q.rows[k], Exec(w, mid, events[1..]).value.q.rows[k]);
    }
  }

  lemma Stays(a: Row)
    ensures Onward(a, a)
  {
  }

  lemma {:induction false} ExecConcat(w: World, s: System, a: seq<Event>, b: seq<Event>)
    requires Exec(w, s, a).Some?
    ensures Exec(w, s, a + b) == Exec(w, Exec(w, s, a).value, b)
    decreases |a|
  {
    hide Step, Enabled;
    if a == [] {
      assert a + b == b;
    } else {
      assert (a + b)[1..] == a[1..] + b;
      ExecConcat(w, Step(w, s, a[0]), a[1..], b);
    }
  }

  // An item ineligible when first observed stays pending and is never claimed, however the run goes on.
  lemma IneligibleNeverClaimed(w: World, s: System, events: seq<Event>, k: Key)
    requires Reachable(w, s) && Exec(w, s, events).Some? && k in s.q.rows && !s.q.rows[k].autoEligible
    ensures var s' := Exec(w, s, events).value;
            && k in s'.q.rows && !s'.q.rows[k].autoEligible && s'.q.rows[k].intent == NoEpisode && s'.q.rows[k].state == Pending
            && forall c | 0 <= c < |s'.issued| :: s'.issued[c].item.key != k
  {
    hide Exec, Fenced, Forward, Balanced, Frontier;
    IntentOnlyGrows(w, s, events, k);
    var before :| Exec(w, Empty, before) == Some(s);
    ExecConcat(w, Empty, before, events);
    AlwaysInv(w, Exec(w, s, events).value);
    var s' := Exec(w, s, events).value;
    assert RowOk(w, s'.log, k, s'.q.rows[k]);
  }

  // The first sync after a start only records; it makes nothing eligible.
  lemma {:induction false} BaselineRecordsOnly(rows: map<Key, Row>, policy: Policy, items: seq<Item>, now: nat)
    ensures forall k | k in ObserveAll(rows, ObservedAll(false, policy, items), now) && k !in rows ::
              !ObserveAll(rows, ObservedAll(false, policy, items), now)[k].autoEligible
    decreases |items|
  {
    if items != [] {
      var head := items[..|items| - 1];
      var all := ObservedAll(false, policy, items);
      assert all[..|all| - 1] == ObservedAll(false, policy, head);
      BaselineRecordsOnly(rows, policy, head, now);
    }
  }
}

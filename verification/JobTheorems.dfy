/** What the lease protocol guarantees over every run of the job repository. */
module JobTheorems {
  import opened JobModel
  import opened JobRuns
  import opened JobFencing

  // Claims of one job carry strictly increasing versions, and at no time can two of them commit.
  lemma OneLiveClaim(rules: Rules, s: System, c: nat, d: nat, now: nat)
    requires Reachable(rules, s) && c < d < |s.issued| && s.issued[c].id == s.issued[d].id
    ensures s.issued[c].version < s.issued[d].version
    ensures !(Holding(s.db, s.issued[c], now) && Holding(s.db, s.issued[d], now))
  {
    hide Snapshots, Logged, OneActive, Planned, AllBounded, Reachable;
    AlwaysInv(rules, s);
  }

  // A claim commits at most one transition, whoever presents it and however often.
  lemma ClaimCommitsOnce(rules: Rules, s: System, c: nat, cmd: Command, now: nat)
    requires Reachable(rules, s) && c < |s.issued| && Spent(s, c) && now >= s.clock
    ensures !Commits(rules, s.db, s.issued[c], cmd, now)
    ensures forall e, f | 0 <= e < f < |s.log| :: s.log[e].claim != s.log[f].claim
  {
    hide Versioned, OneActive, Planned, AllBounded, Reachable, Accepts, Admits;
    AlwaysInv(rules, s);
    if Holding(s.db, s.issued[c], now) { CommitIsFirst(rules, s, c, cmd, now); }
  }

  lemma OneActiveJob(rules: Rules, s: System, i: string, j: string)
    requires Reachable(rules, s) && i in s.db && j in s.db && i != j && s.db[i].intentKey == s.db[j].intentKey
    ensures !(Active(s.db[i]) && Active(s.db[j]))
  {
    hide Versioned, Snapshots, Logged, Planned, AllBounded, Reachable;
    AlwaysInv(rules, s);
  }

  /******* Terminal jobs *******/

  lemma StepTerminal(rules: Rules, s: System, e: Event, id: string)
    requires Enabled(s, e) && id in s.db && !Active(s.db[id])
    ensures id in Step(rules, s, e).db && Step(rules, s, e).db[id] == s.db[id]
  {
    hide Loadable, ValidPlan, ValidSelection;
  }

  // A succeeded, failed or manual-review job never changes again.
  lemma {:induction false} TerminalForever(rules: Rules, s: System, events: seq<Event>, id: string)
    requires Exec(rules, s, events).Some? && id in s.db && !Active(s.db[id])
    ensures var s' := Exec(rules, s, events).value; id in s'.db && s'.db[id] == s.db[id]
    decreases |events|
  {
    hide Step;
    if events != [] {
      StepTerminal(rules, s, events[0], id);
      TerminalForever(rules, Step(rules, s, events[0]), events[1..], id);
    }
  }

  /******* A live lease is exclusive *******/

  // c is the job's latest claim, has not committed, and has not expired.
  ghost predicate Live(s: System, c: nat)
  {
    c < |s.issued| && Current(s, c) && !Spent(s, c) && s.clock < s.issued[c].job.leaseUntil
  }

  lemma LiveHolds(rules: Rules, s: System, c: nat)
    requires Inv(rules, s) && Live(s, c)
    ensures s.db[s.issued[c].id] == s.issued[c].job && Holding(s.db, s.issued[c], s.clock)
  {
    hide Versioned, Logged, OneActive, Planned, AllBounded;
  }

  // Before it expires, only its own commit can end a lease.
  lemma StepLive(rules: Rules, s: System, e: Event, c: nat)
    requires Inv(rules, s) && Live(s, c) && Enabled(s, e) && e.now < s.issued[c].job.leaseUntil
    requires !Spent(Step(rules, s, e), c)
    ensures Live(Step(rules, s, e), c) && Step(rules, s, e).issued[c] == s.issued[c]
  {
    hide Loadable, Accepts, Admits, Versioned, Snapshots, OneActive, Planned, AllBounded, Inv, Spent;
    LiveHolds(rules, s, c);
    var s' := Step(rules, s, e);
    match e
    case Submit(id, request, now) => assert s'.log == s.log && s'.issued == s.issued;
    case Lease(now, duration) =>
      if duration > 0 && SomeoneInLine(s.db, now) { assert Claimable(s.db[Front(s.db, now)], now); }
    case Commit(d, cmd, now) =>
      if Commits(rules, s.db, s.issued[d], cmd, now) { OwnCommit(rules, s, s', c, d, cmd, now); }
  }

  // A commit on the claimed job would be the claim's own.
  lemma OwnCommit(rules: Rules, s: System, s': System, c: nat, d: nat, cmd: Command, now: nat)
    requires Inv(rules, s) && c < |s.issued| && d < |s.issued| && Current(s, c) && Commits(rules, s.db, s.issued[d], cmd, now)
    requires s' == CommitStep(rules, s, d, cmd, now) && !Spent(s', c)
    ensures s.issued[d].id != s.issued[c].id
  {
    hide Snapshots, OneActive, Planned, AllBounded, Logged, Accepts, Admits;
    assert s'.log[|s.log|].claim == d;
  }

  lemma StepClock(rules: Rules, s: System, e: Event)
    requires Enabled(s, e)
    ensures Step(rules, s, e).clock == e.now
  {
  }

  lemma {:induction false} ClockGrows(rules: Rules, s: System, events: seq<Event>)
    requires Exec(rules, s, events).Some?
    ensures Exec(rules, s, events).value.clock >= s.clock
    decreases |events|
  {
    hide Step;
    if events != [] {
      StepClock(rules, s, events[0]);
      ClockGrows(rules, Step(rules, s, events[0]), events[1..]);
    }
  }

  lemma StepSpent(rules: Rules, s: System, e: Event, c: nat)
    requires Enabled(s, e) && Spent(s, c)
    ensures Spent(Step(rules, s, e), c)
  {
    hide Loadable, Accepts, Admits;
    var i :| 0 <= i < |s.log| && s.log[i].claim == c;
    assert Step(rules, s, e).log[i].claim == c;
  }

  lemma {:induction false} ExecSpent(rules: Rules, s: System, events: seq<Event>, c: nat)
    requires Exec(rules, s, events).Some? && Spent(s, c)
    ensures Spent(Exec(rules, s, events).value, c)
    decreases |events|
  {
    hide Step, Spent;
    if events != [] {
      StepSpent(rules, s, events[0], c);
      ExecSpent(rules, Step(rules, s, events[0]), events[1..], c);
    }
  }

  // While a lease lasts nobody else can lease or change its job, so its holder's transition is never stale.
  lemma {:induction false} LeaseIsExclusive(rules: Rules, s: System, events: seq<Event>, c: nat)
    requires Inv(rules, s) && Live(s, c) && Exec(rules, s, events).Some?
    requires var s' := Exec(rules, s, events).value; s'.clock < s.issued[c].job.leaseUntil && !Spent(s', c)
    ensures var s' := Exec(rules, s, events).value;
            Live(s', c) && s'.issued[c] == s.issued[c] && s.issued[c].id in s'.db && s'.db[s.issued[c].id] == s.issued[c].job
    decreases |events|
  {
    hide Step, Spent, Inv, Live;
    if events == [] {
      assert Exec(rules, s, events).value == s;
      LiveIndex(s, c);
      LiveHolds(rules, s, c);
    } else {
      var e, mid, rest := events[0], Step(rules, s, events[0]), events[1..];
      LiveIndex(s, c);
      StepClock(rules, s, e);
      ClockGrows(rules, mid, rest);
      if Spent(mid, c) { ExecSpent(rules, mid, rest, c); }
      StepLive(rules, s, e, c);
      StepKeeps(rules, s, e);
      LeaseIsExclusive(rules, mid, rest, c);
    }
  }

  lemma LiveIndex(s: System, c: nat)
    requires Live(s, c)
    ensures c < |s.issued|
  {
  }

  /******* Plans *******/

  // An active planned job has exactly one selected candidate, at its ordinal; a job makes at most 1 + 2n moves.
  lemma PlanAndBound(rules: Rules, s: System, id: string)
    requires Reachable(rules, s) && id in s.db
    ensures s.db[id].state == Selected || s.db[id].state == Preparing ==> PlanAt(s.db[id])
    ensures Moves(s.log, id) + Remaining(s.db[id]) <= 1 + 2 * |s.db[id].plan|
    ensures Remaining(s.db[id]) >= 0 && Moves(s.log, id) <= 11
  {
    hide Versioned, Snapshots, Logged, OneActive, Reachable, Moves;
    AlwaysInv(rules, s);
    assert PlanShape(rules, s.db[id]) && Bounded(s, id);
  }
}

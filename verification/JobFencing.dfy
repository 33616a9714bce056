/** Lease fencing, plan shape and transition bound hold in every run of the repository. */
module JobFencing {
  import opened Options
  import opened JobModel
  import opened JobRuns

  /******* Submit *******/

  lemma SubmitKeeps(rules: Rules, s: System, id: string, request: Request, now: nat)
    requires Inv(rules, s) && now >= s.clock
    ensures Inv(rules, Step(rules, s, Submit(id, request, now)))
  {
    hide Versioned, Snapshots, Logged, OneActive, Planned, AllBounded, Loadable;
    var row := NewRow(rules, request, now);
    var s' := Step(rules, s, Submit(id, request, now));
    if s'.db != s.db {
      assert s'.db == s.db[id := row] && id !in s.db;
      SubmitVersioned(s, id, row, now);
      SubmitActive(s, id, row, now);
      SubmitPlanned(rules, s, id, row, now);
      SubmitBounded(s, id, row, now);
      SameLog(s, s');
    } else {
      ClockOnly(rules, s, now);
    }
  }

  lemma ClockOnly(rules: Rules, s: System, now: nat)
    requires Inv(rules, s)
    ensures Inv(rules, s.(clock := now))
  {
    var s' := s.(clock := now);
    assert forall c | 0 <= c < |s.issued| :: Spent(s', c) == Spent(s, c);
    assert forall id | id in s.db :: Bounded(s, id) ==> Bounded(s', id);
  }

  lemma SubmitVersioned(s: System, id: string, row: Row, now: nat)
    requires Versioned(s) && Snapshots(s) && id !in s.db && row.leaseVersion == 0
    ensures Versioned(s.(db := s.db[id := row], clock := now)) && Snapshots(s.(db := s.db[id := row], clock := now))
  {
    var s' := s.(db := s.db[id := row], clock := now);
    assert forall c | 0 <= c < |s.issued| :: Spent(s', c) == Spent(s, c);
  }

  lemma SubmitActive(s: System, id: string, row: Row, now: nat)
    requires OneActive(s) && id !in s.db && forall j :: !ActiveFor(s.db, j, row.intentKey)
    ensures OneActive(s.(db := s.db[id := row], clock := now))
  {
    var s' := s.(db := s.db[id := row], clock := now);
    forall j | j in s.db && Active(s.db[j]) ensures s.db[j].intentKey != row.intentKey {
      assert !ActiveFor(s.db, j, row.intentKey);
    }
  }

  lemma SubmitPlanned(rules: Rules, s: System, id: string, row: Row, now: nat)
    requires Planned(rules, s) && row.plan == [] && row.state == Queued && row.ordinal.None? && row.selection.None?
    ensures Planned(rules, s.(db := s.db[id := row], clock := now))
  {
  }

  lemma SubmitBounded(s: System, id: string, row: Row, now: nat)
    requires AllBounded(s) && id !in s.db && row.plan == [] && row.state == Queued
    ensures AllBounded(s.(db := s.db[id := row], clock := now))
  {
    var s' := s.(db := s.db[id := row], clock := now);
    NoMoves(s.log, id);
    assert forall j | j in s.db :: Bounded(s, j) ==> Bounded(s', j);
  }

  lemma {:induction false} NoMoves(log: seq<Entry>, id: string)
    requires forall e | 0 <= e < |log| :: log[e].id != id
    ensures Moves(log, id) == 0
  {
    if log != [] { NoMoves(log[..|log| - 1], id); }
  }

  lemma SameLog(s: System, s': System)
    requires Logged(s) && s'.log == s.log && s'.issued == s.issued
    ensures Logged(s')
  {
  }

  /******* Lease *******/

  // Leasing changes one claimable row, and only its attempt, version, expiry and time.
  lemma LeaseKeeps(rules: Rules, s: System, now: nat, duration: int)
    requires Inv(rules, s) && now >= s.clock
    ensures Inv(rules, Step(rules, s, Lease(now, duration)))
  {
    hide Versioned, Snapshots, Logged, OneActive, Planned, AllBounded, Loadable, FirstInLine;
    var s' := Step(rules, s, Lease(now, duration));
    if duration > 0 && SomeoneInLine(s.db, now) {
      var id := Front(s.db, now);
      var row := Leased(s.db[id], now, duration);
      assert s'.db == s.db[id := row];
      assert FirstInLine(s.db, now, id) ==> s.db[id].leaseUntil <= now by { FrontClaimable(s.db, now, id); }
      if s'.issued == s.issued {
        LeaseSilent(s, s', id, row);
      } else {
        assert s'.issued == s.issued + [Claim(id, row, row.leaseVersion)];
        LeaseIssued(s, s', id, row);
      }
      RenewedRest(rules, s, s', id, row);
      LoggedGrows(s, s');
    } else {
      assert s' == s.(clock := now);
      ClockOnly(rules, s, now);
    }
  }

  lemma FrontClaimable(db: Db, now: nat, id: string)
    requires FirstInLine(db, now, id)
    ensures id in db && Claimable(db[id], now)
  {
  }

  lemma LeaseSilent(s: System, s': System, id: string, row: Row)
    requires Versioned(s) && Snapshots(s) && id in s.db && row.leaseVersion == s.db[id].leaseVersion + 1
    requires s'.db == s.db[id := row] && s'.issued == s.issued && s'.log == s.log
    ensures Versioned(s') && Snapshots(s')
  {
    assert forall c | 0 <= c < |s.issued| :: Spent(s', c) == Spent(s, c);
    assert forall c | 0 <= c < |s.issued| && s.issued[c].id == id :: !Current(s', c);
  }

  lemma LeaseIssued(s: System, s': System, id: string, row: Row)
    requires Versioned(s) && Snapshots(s) && Logged(s) && id in s.db && row.leaseVersion == s.db[id].leaseVersion + 1
    requires s'.db == s.db[id := row] && s'.issued == s.issued + [Claim(id, row, row.leaseVersion)] && s'.log == s.log
    ensures Versioned(s') && Snapshots(s')
  {
    assert forall c | 0 <= c < |s.issued| :: Spent(s', c) == Spent(s, c);
    assert forall c | 0 <= c < |s.issued| && s.issued[c].id == id :: !Current(s', c);
    assert !Spent(s', |s.issued|);
  }

  lemma LoggedGrows(s: System, s': System)
    requires Logged(s) && s'.log == s.log && |s.issued| <= |s'.issued| && s'.issued[..|s.issued|] == s.issued
    ensures Logged(s')
  {
    assert forall c | 0 <= c < |s.issued| :: s'.issued[c] == s.issued[c];
  }

  // A row whose lease fields alone change keeps its stage, plan and count.
  lemma RenewedRest(rules: Rules, s: System, s': System, id: string, row: Row)
    requires OneActive(s) && Planned(rules, s) && AllBounded(s) && id in s.db
    requires row == s.db[id].(attempt := row.attempt, leaseVersion := row.leaseVersion, leaseUntil := row.leaseUntil, updatedAt := row.updatedAt)
    requires s'.db == s.db[id := row] && s'.log == s.log
    ensures OneActive(s') && Planned(rules, s') && AllBounded(s')
  {
    hide Entered, AtCandidate;
    assert forall j | j in s'.db :: s'.db[j].intentKey == s.db[j].intentKey && Active(s'.db[j]) == Active(s.db[j]);
    assert forall j | j in s'.db :: Bounded(s, j) ==> Bounded(s', j);
    assert PlanShape(rules, s.db[id]) && PlanAt(row) == PlanAt(s.db[id]);
  }

  /******* Commit *******/

  // A claim that commits is current and unspent, and its snapshot is the row.
  lemma CommitIsFirst(rules: Rules, s: System, c: nat, cmd: Command, now: nat)
    requires Snapshots(s) && c < |s.issued| && Holding(s.db, s.issued[c], now)
    ensures !Spent(s, c) && s.db[s.issued[c].id] == s.issued[c].job
  {
    assert Current(s, c);
  }

  lemma CommitKeeps(rules: Rules, s: System, c: nat, cmd: Command, now: nat)
    requires Inv(rules, s) && now >= s.clock && c < |s.issued|
    ensures Inv(rules, Step(rules, s, Commit(c, cmd, now)))
  {
    hide Versioned, Snapshots, Logged, OneActive, Planned, AllBounded, Accepts, Admits;
    var s' := Step(rules, s, Commit(c, cmd, now));
    var claim := s.issued[c];
    if Commits(rules, s.db, claim, cmd, now) {
      CommitIsFirst(rules, s, c, cmd, now);
      CommittedRow(rules, s, c, cmd, now);
      var row := s'.db[claim.id];
      CommitVersioned(s, s', c, row, cmd.Defer?);
      CommitLogged(s, s', c, cmd.Defer?);
      CommitActive(s, s', claim.id, row);
      CommitPlanned(rules, s, c, cmd, now);
      CommitBounded(rules, s, c, cmd, now);
    } else {
      assert s' == s.(clock := now);
      ClockOnly(rules, s, now);
    }
  }

  // The lease comes back; version and intent stay; a job never becomes active again.
  lemma CommittedRow(rules: Rules, s: System, c: nat, cmd: Command, now: nat)
    requires c < |s.issued| && Commits(rules, s.db, s.issued[c], cmd, now)
    ensures var id := s.issued[c].id;
            var row := CommitStep(rules, s, c, cmd, now).db[id];
            && CommitStep(rules, s, c, cmd, now).db == s.db[id := row]
            && row.leaseUntil == 0 && row.leaseVersion == s.db[id].leaseVersion
            && row.intentKey == s.db[id].intentKey && Active(s.db[id])
  {
    hide Loadable, ValidPlan, ValidSelection;
  }

  lemma CommitVersioned(s: System, s': System, c: nat, row: Row, deferral: bool)
    requires Versioned(s) && Snapshots(s) && c < |s.issued| && Current(s, c)
    requires row.leaseUntil == 0 && row.leaseVersion == s.db[s.issued[c].id].leaseVersion
    requires s'.db == s.db[s.issued[c].id := row] && s'.issued == s.issued
    requires s'.log == s.log + [Entry(c, s.issued[c].id, deferral)]
    ensures Versioned(s') && Snapshots(s')
  {
    forall d | 0 <= d < |s.issued| ensures Spent(s', d) <==> Spent(s, d) || d == c {
      assert s'.log[|s.log|].claim == c;
      if Spent(s, d) { var e :| 0 <= e < |s.log| && s.log[e].claim == d; assert s'.log[e].claim == d; }
    }
    forall d | 0 <= d < |s.issued| && Current(s', d) ensures s.issued[d].id == s.issued[c].id ==> d == c {}
    assert forall d | 0 <= d < |s.issued| :: Current(s', d) == Current(s, d);
  }

  lemma CommitLogged(s: System, s': System, c: nat, deferral: bool)
    requires Logged(s) && c < |s.issued| && !Spent(s, c) && s'.issued == s.issued
    requires s'.log == s.log + [Entry(c, s.issued[c].id, deferral)]
    ensures Logged(s')
  {
  }

  lemma CommitActive(s: System, s': System, id: string, row: Row)
    requires OneActive(s) && id in s.db && s'.db == s.db[id := row]
    requires row.intentKey == s.db[id].intentKey && Active(s.db[id])
    ensures OneActive(s')
  {
    assert forall j | j in s'.db && Active(s'.db[j]) :: Active(s.db[j]) && s'.db[j].intentKey == s.db[j].intentKey;
  }

  lemma CommitPlanned(rules: Rules, s: System, c: nat, cmd: Command, now: nat)
    requires Planned(rules, s) && c < |s.issued| && Commits(rules, s.db, s.issued[c], cmd, now)
    requires s.db[s.issued[c].id] == s.issued[c].job
    ensures Planned(rules, CommitStep(rules, s, c, cmd, now))
  {
    hide Accepts, Admits, PlanShape, Written;
    CommitShape(rules, s.db, s.issued[c], cmd, now);
  }

  // Every transition keeps the plan's shape.
  lemma CommitShape(rules: Rules, db: Db, claim: Claim, cmd: Command, now: nat)
    requires claim.id in db && PlanShape(rules, db[claim.id]) && Commits(rules, db, claim, cmd, now) && db[claim.id] == claim.job
    ensures claim.id in Transact(rules, db, claim, cmd, now) && PlanShape(rules, Transact(rules, db, claim, cmd, now)[claim.id])
  {
    hide ValidSelection, Loadable;
    var row := Transact(rules, db, claim, cmd, now)[claim.id];
    match cmd
    case Plan(candidates) => assert AtCandidate(candidates, 0);
    case Attach(_, _) =>
    case Advance(outcome, _) => AdvanceShape(rules, claim.job, outcome);
    case Defer(_, _, _) =>
    case Succeed(_) =>
    case Fail(_, manualReview) => FailShape(rules, claim, cmd, now);
  }

  // Fail is refused for a planned job unless it asks for manual review.
  lemma FailShape(rules: Rules, claim: Claim, cmd: Command, now: nat)
    requires cmd.Fail? && Accepts(rules, claim, cmd, now) && PlanShape(rules, claim.job) && Active(claim.job)
    ensures !cmd.manualReview ==> claim.job.state == Queued && claim.job.plan == []
  {
  }

  // Giving up candidate k leaves k + 1 as the first pending one.
  lemma AdvanceShape(rules: Rules, row: Row, outcome: Outcome)
    requires PlanShape(rules, row) && PlanAt(row) && Abandoned(outcome)
    ensures var k := row.ordinal.value;
            var marked := Marked(row.plan, k, outcome);
            && Entered(rules, marked) && FirstPending(marked, 0) == k + 1
            && if k + 1 < |marked| then AtCandidate(Marked(marked, k + 1, Chosen), k + 1) && Entered(rules, Marked(marked, k + 1, Chosen))
               else forall i | 0 <= i < |marked| :: Abandoned(marked[i].outcome)
  {
    hide ValidSelection;
    var k := row.ordinal.value;
    var marked := Marked(row.plan, k, outcome);
    assert forall i | 0 <= i <= k :: Abandoned(marked[i].outcome);
    assert k + 1 < |marked| ==> marked[k + 1] == row.plan[k + 1];
    assert FirstPending(marked, 0) == k + 1;
    assert k + 1 < |marked| ==> AtCandidate(Marked(marked, k + 1, Chosen), k + 1);
  }

  lemma CommitBounded(rules: Rules, s: System, c: nat, cmd: Command, now: nat)
    requires Planned(rules, s) && AllBounded(s) && c < |s.issued| && Commits(rules, s.db, s.issued[c], cmd, now)
    requires s.db[s.issued[c].id] == s.issued[c].job
    ensures AllBounded(CommitStep(rules, s, c, cmd, now))
  {
    hide Accepts, Admits, PlanShape, Written, Moves, Remaining;
    var id := s.issued[c].id;
    var s' := CommitStep(rules, s, c, cmd, now);
    MoreMoves(s.log, Entry(c, id, cmd.Defer?));
    assert PlanShape(rules, s.db[id]) && Bounded(s, id);
    CommitProgress(rules, s.db, s.issued[c], cmd, now);
    assert Bounded(s', id);
    forall j | j in s'.db && j != id ensures Bounded(s', j) { assert Bounded(s, j); }
  }

  lemma MoreMoves(log: seq<Entry>, e: Entry)
    ensures forall id :: Moves(log + [e], id) == Moves(log, id) + if e.id == id && !e.deferral then 1 else 0
  {
    assert (log + [e])[..|log|] == log;
  }

  // A transition that is not a deferral uses up some of what remains; planning grants 1 + 2n in all.
  lemma CommitProgress(rules: Rules, db: Db, claim: Claim, cmd: Command, now: nat)
    requires claim.id in db && PlanShape(rules, db[claim.id]) && Commits(rules, db, claim, cmd, now) && db[claim.id] == claim.job
    ensures var row := db[claim.id];
            claim.id in Transact(rules, db, claim, cmd, now) &&
            var row' := Transact(rules, db, claim, cmd, now)[claim.id];
            && (cmd.Defer? ==> Remaining(row') == Remaining(row) && |row'.plan| == |row.plan| && row'.state == row.state)
            && (!cmd.Defer? ==> row'.state != Queued)
            && (!cmd.Defer? && row.state == Queued ==> Remaining(row') <= 2 * |row'.plan|)
            && (!cmd.Defer? && row.state != Queued ==> Remaining(row') < Remaining(row) && |row'.plan| == |row.plan|)
  {
    hide ValidSelection, Loadable;
    match cmd
    case Plan(candidates) =>
    case Attach(_, _) =>
    case Advance(outcome, _) => AdvanceShape(rules, claim.job, outcome);
    case Defer(_, _, _) =>
    case Succeed(_) =>
    case Fail(_, manualReview) => FailShape(rules, claim, cmd, now);
  }

  /******* Whole runs *******/

  lemma StepKeeps(rules: Rules, s: System, e: Event)
    requires Inv(rules, s) && Enabled(s, e)
    ensures Inv(rules, Step(rules, s, e))
  {
    hide Inv, Step;
    match e
    case Submit(id, request, now) => SubmitKeeps(rules, s, id, request, now);
    case Lease(now, duration) => LeaseKeeps(rules, s, now, duration);
    case Commit(c, cmd, now) => CommitKeeps(rules, s, c, cmd, now);
  }

  lemma {:induction false} ExecKeeps(rules: Rules, s: System, events: seq<Event>)
    requires Inv(rules, s) && Exec(rules, s, events).Some?
    ensures Inv(rules, Exec(rules, s, events).value)
    decreases |events|
  {
    hide Inv, Step;
    if events != [] {
      StepKeeps(rules, s, events[0]);
      ExecKeeps(rules, Step(rules, s, events[0]), events[1..]);
    }
  }

  lemma AlwaysInv(rules: Rules, s: System)
    requires Reachable(rules, s)
    ensures Inv(rules, s)
  {
    var events :| Exec(rules, Empty, events) == Some(s);
    ExecKeeps(rules, Empty, events);
  }
}

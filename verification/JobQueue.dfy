/** The job queue column by column: which row a lease takes and when, and what each transition does to a row. */
module JobQueue {
  import opened Options
  import opened Sorting
  import opened JobModel
  import opened JobRepository
  import opened JobRuns
  import opened JobTheorems

  /******* Submissions *******/

  // A new request is stored exactly when its id and text are acceptable, the id is free, and no unfinished job has its
  // intent; it then waits at the head of its stages, due at once. Otherwise nothing is stored.
  lemma SubmitLaw(rules: Rules, db: Db, id: string, request: Request, now: nat)
    ensures var db' := SubmitDb(rules, db, id, request, now);
            if id !in db && ValidID(id) && rules.request(request) &&
               forall j | j in db && db[j].intentKey == rules.intentKey(request) :: db[j].state in {Succeeded, Failed, ManualReview}
            then id in db' && db' == db[id := db'[id]] && Queues(rules, request, db'[id], now)
            else db' == db
  {
    if forall j | j in db && db[j].intentKey == rules.intentKey(request) :: db[j].state in {Succeeded, Failed, ManualReview} {
      assert forall j :: !ActiveFor(db, j, rules.intentKey(request));
    } else {
      var j :| j in db && db[j].intentKey == rules.intentKey(request) && db[j].state !in {Succeeded, Failed, ManualReview};
      assert ActiveFor(db, j, rules.intentKey(request));
    }
  }

  predicate Queues(rules: Rules, request: Request, row: Row, now: nat)
  {
    && row.request == request && row.intentKey == rules.intentKey(request) && row.state == Queued && Due(row, now)
    && row.plan == [] && row.attempt == 0 && row.leaseVersion == 0 && row.createdAt == now && row.error == NoCode
  }

  /******* Leases *******/

  // An unfinished job whose time has come and that nobody holds.
  predicate Due(row: Row, now: int)
  {
    (row.state == Queued || row.state == Selected || row.state == Preparing) && row.nextAttempt <= now && row.leaseUntil <= now
  }

  // Earlier due; among equals older; among equals smaller id.
  predicate Sooner(i: string, x: Row, j: string, y: Row)
  {
    x.nextAttempt <= y.nextAttempt &&
    (x.nextAttempt == y.nextAttempt ==> x.createdAt <= y.createdAt && (x.createdAt == y.createdAt ==> StringLess(i, j)))
  }

  lemma {:induction false} LeastDue(db: Db, now: int, keys: set<string>) returns (k: string)
    requires keys != {} && forall j | j in keys :: j in db && Claimable(db[j], now)
    ensures k in keys && forall j | j in keys && j != k :: Ahead(k, db[k], j, db[j])
    decreases |keys|
  {
    k :| k in keys;
    if keys != {k} {
      var least := LeastDue(db, now, keys - {k});
      AheadTotal(k, db[k], least, db[least]);
      if Ahead(least, db[least], k, db[k]) {
        k := least;
      } else {
        forall j | j in keys && j != k ensures Ahead(k, db[k], j, db[j]) {
          if j != least { AheadTransitive(k, db[k], least, db[least], j, db[j]); }
        }
      }
    }
  }

  lemma SomeoneIff(db: Db, now: int)
    ensures SomeoneInLine(db, now) <==> exists j :: j in db && Claimable(db[j], now)
  {
    if exists j :: j in db && Claimable(db[j], now) {
      var keys := set j | j in db && Claimable(db[j], now);
      var j :| j in db && Claimable(db[j], now);
      assert j in keys;
      var k := LeastDue(db, now, keys);
      assert FirstInLine(db, now, k);
    }
  }

  // A lease takes a row exactly when some row is due, and then the soonest one; it counts the attempt, moves the
  // version on, sets the expiry, and touches nothing else.
  lemma LeaseLaw(rules: Rules, s: System, now: nat, duration: int)
    ensures duration <= 0 || (forall j | j in s.db :: !Due(s.db[j], now)) ==>
              LeaseStep(rules, s, now, duration).db == s.db && LeaseStep(rules, s, now, duration).issued == s.issued
    ensures duration > 0 && (exists j :: j in s.db && Due(s.db[j], now)) ==>
              exists id :: Taken(rules, s, now, duration, id)
  {
    hide Loadable, FirstInLine;
    SomeoneIff(s.db, now);
    if duration > 0 && exists j :: j in s.db && Due(s.db[j], now) {
      var j :| j in s.db && Due(s.db[j], now);
      assert Claimable(s.db[j], now);
      var id := Front(s.db, now);
      FrontIsSoonest(s.db, now, id);
      assert Taken(rules, s, now, duration, id);
    } else if SomeoneInLine(s.db, now) {
      var j :| j in s.db && Claimable(s.db[j], now);
      assert Due(s.db[j], now);
    }
  }

  lemma FrontIsSoonest(db: Db, now: int, id: string)
    requires FirstInLine(db, now, id)
    ensures id in db && Due(db[id], now) && forall j | j in db && Due(db[j], now) && j != id :: Sooner(id, db[id], j, db[j])
  {
    forall j | j in db && Due(db[j], now) && j != id ensures Sooner(id, db[id], j, db[j]) { assert Claimable(db[j], now); }
  }

  // The step leased exactly this row, the soonest of those due, and issued a claim on it if it loads.
  ghost predicate Taken(rules: Rules, s: System, now: nat, duration: int, id: string)
  {
    var s' := LeaseStep(rules, s, now, duration);
    && id in s.db && Due(s.db[id], now)
    && (forall j | j in s.db && Due(s.db[j], now) && j != id :: Sooner(id, s.db[id], j, s.db[j]))
    && s'.db == s.db[id := s.db[id].(attempt := s.db[id].attempt + 1, leaseVersion := s.db[id].leaseVersion + 1,
                                     leaseUntil := now + duration, updatedAt := now)]
    && s'.issued == (if Loadable(rules, id, s'.db[id]) && s'.db[id].leaseVersion >= 1
                     then s.issued + [Claim(id, s'.db[id], s'.db[id].leaseVersion)] else s.issued)
  }

  // A lease leaves a row alone that is not due.
  lemma LeaseSkips(rules: Rules, s: System, now: nat, duration: int, id: string)
    requires id in s.db && !Due(s.db[id], now)
    ensures var s' := LeaseStep(rules, s, now, duration);
            && id in s'.db && s'.db[id] == s.db[id] && |s.issued| <= |s'.issued| && s'.issued[..|s.issued|] == s.issued
            && forall c | |s.issued| <= c < |s'.issued| :: s'.issued[c].id != id
  {
    hide Loadable, FirstInLine;
    if duration > 0 && SomeoneInLine(s.db, now) { FrontIsSoonest(s.db, now, Front(s.db, now)); }
  }

  /******* Deferrals *******/

  // The job waits, unleased, for a time that has not come.
  ghost predicate Waiting(s: System, id: string, row: Row, t: int, issued: nat)
  {
    && id in s.db && s.db[id] == row && row.leaseUntil == 0 && row.nextAttempt == t
    && issued <= |s.issued| && forall c | issued <= c < |s.issued| :: s.issued[c].id != id
  }

  lemma StepWaits(rules: Rules, s: System, e: Event, id: string, row: Row, t: int, issued: nat)
    requires Waiting(s, id, row, t, issued) && Enabled(s, e) && e.now < t
    ensures Waiting(Step(rules, s, e), id, row, t, issued)
  {
    hide Loadable, Accepts, Admits, ClaimReply, ClaimDb;
    match e
    case Submit(_, _, _) =>
    case Lease(now, duration) => LeaseSkips(rules, s, now, duration, id);
    case Commit(_, _, _) =>
  }

  lemma {:induction false} ExecWaits(rules: Rules, s: System, events: seq<Event>, id: string, row: Row, t: int, issued: nat)
    requires Waiting(s, id, row, t, issued) && Exec(rules, s, events).Some? && Exec(rules, s, events).value.clock < t
    ensures Waiting(Exec(rules, s, events).value, id, row, t, issued)
    decreases |events|
  {
    hide Step, Waiting;
    if events != [] {
      StepClock(rules, s, events[0]);
      ClockGrows(rules, Step(rules, s, events[0]), events[1..]);
      StepWaits(rules, s, events[0], id, row, t, issued);
      ExecWaits(rules, Step(rules, s, events[0]), events[1..], id, row, t, issued);
    }
  }

  // After a committed deferral to time t, nothing before t leases the job or changes its row, whatever else happens.
  lemma DeferredUntil(rules: Rules, s: System, c: nat, t: int, code: ErrorCode, progress: int, now: nat, events: seq<Event>)
    requires c < |s.issued| && now >= s.clock && Commits(rules, s.db, s.issued[c], Defer(t, code, progress), now)
    requires var deferred := Step(rules, s, Commit(c, Defer(t, code, progress), now));
             Exec(rules, deferred, events).Some? && Exec(rules, deferred, events).value.clock < t
    ensures var deferred, id := Step(rules, s, Commit(c, Defer(t, code, progress), now)), s.issued[c].id;
            var later := Exec(rules, deferred, events).value;
            && id in deferred.db && id in later.db && later.db[id] == deferred.db[id] && deferred.db[id].nextAttempt == t
            && |s.issued| <= |later.issued| && forall d | |s.issued| <= d < |later.issued| :: later.issued[d].id != id
  {
    hide Exec, Accepts, Admits;
    var deferred, id := Step(rules, s, Commit(c, Defer(t, code, progress), now)), s.issued[c].id;
    assert Waiting(deferred, id, deferred.db[id], t, |s.issued|);
    ExecWaits(rules, deferred, events, id, deferred.db[id], t, |s.issued|);
  }

  /******* Transitions *******/

  // What each committed transition found in the row, and what it left there.
  predicate Transition(rules: Rules, claim: Claim, row: Row, row': Row, cmd: Command, now: int)
  {
    && row.leaseVersion == claim.version && row.leaseUntil > now
    && row'.leaseVersion == row.leaseVersion && row'.leaseUntil == 0 && row'.updatedAt == now
    && row'.request == row.request && row'.intentKey == row.intentKey && row'.attempt == row.attempt && row'.createdAt == row.createdAt
    && match cmd
       case Plan(plan) =>
         && row.state == Queued && row.plan == [] && 1 <= |plan| <= 5
         && row'.state == Selected && row'.plan == plan && row'.ordinal == Some(0) && row'.selection == Some(plan[0].selection)
         && row'.created == None && !row'.createdByJob && row'.error == NoCode && row'.progress == 0 && row'.nextAttempt == 0
         && row'.published == row.published
       case Attach(attached, owned) =>
         && row.state == Selected
         && row' == row.(state := Preparing, created := Some(attached), createdByJob := owned, error := NoCode, progress := 0,
                         nextAttempt := 0, leaseUntil := 0, updatedAt := now)
       case Advance(outcome, code) =>
         && (row.state == Selected || row.state == Preparing) && (outcome == Stalled || outcome == Missing || outcome == Unplayable)
         && (row.state == Selected ==> outcome == Missing) && code != NoCode
         && (row'.state == Selected || row'.state == Failed) && row'.created == None && !row'.createdByJob && row'.progress == 0
         && row'.nextAttempt == 0 && |row'.plan| == |row.plan| && row'.published == row.published
         && (row'.state == Selected ==> row'.error == NoCode && row'.ordinal.Some? && row'.selection.Some?)
         && (row'.state == Failed ==> row'.error == code && row'.ordinal == None && row'.selection == None)
         && claim.job.ordinal.Some? && GivenUp(row, row', claim.job.ordinal.value, outcome)
       case Defer(next, code, progress) =>
         && (row.state == Queued || row.state == Selected || row.state == Preparing)
         && next > now && 0 <= progress <= 99 && (code == NoCode || code == ProviderUnavailable || code == NotAuthorized)
         && row' == row.(nextAttempt := next, error := code, progress := progress, leaseUntil := 0, updatedAt := now)
       case Succeed(published) =>
         && row.state == Preparing && published != "" && rules.published(published)
         && row' == row.(state := Succeeded, published := published, error := NoCode, progress := 100, nextAttempt := 0,
                         leaseUntil := 0, updatedAt := now)
       case Fail(code, review) =>
         && (row.state == Queued || row.state == Selected || row.state == Preparing) && code != NoCode
         && (review ==> code == AmbiguousMutation) && (!review ==> claim.job.ordinal == None && !claim.job.createdByJob)
         && row' == row.(state := if review then ManualReview else Failed, error := code, nextAttempt := 0, leaseUntil := 0, updatedAt := now)
  }

  // Candidate k gets its outcome, and the first one waiting is selected; if none waits, the job fails.
  predicate GivenUp(row: Row, row': Row, k: int, outcome: Outcome)
  {
    && 0 <= k < |row.plan| == |row'.plan| && row.plan[k].outcome == Chosen && row'.plan[k] == row.plan[k].(outcome := outcome)
    && (row'.state == Failed ==> forall i | 0 <= i < |row.plan| && i != k :: row.plan[i].outcome != Pending && row'.plan[i] == row.plan[i])
    && (row'.state == Selected ==>
          && row'.ordinal.Some? && 0 <= row'.ordinal.value < |row.plan|
          && var n := row'.ordinal.value;
             && n != k && row.plan[n].outcome == Pending && row'.plan[n] == row.plan[n].(outcome := Chosen)
             && row'.selection == Some(row.plan[n].selection)
             && (forall i | 0 <= i < n && i != k :: row.plan[i].outcome != Pending)
             && forall i | 0 <= i < |row.plan| && i != k && i != n :: row'.plan[i] == row.plan[i])
  }

  lemma AdvanceGivesUp(rules: Rules, row: Row, claim: Claim, outcome: Outcome, code: ErrorCode)
    requires Admits(rules, row, claim, Advance(outcome, code)) && outcome != Pending
    ensures GivenUp(row, Written(rules, row, claim, Advance(outcome, code)), claim.job.ordinal.value, outcome)
  {
    hide ValidSelection;
    var k := claim.job.ordinal.value;
    var marked := Marked(row.plan, k, outcome);
    var n := FirstPending(marked, 0);
    assert forall i | 0 <= i < |marked| && i != k :: marked[i] == row.plan[i];
    assert n < |marked| ==> marked[n].outcome == Pending;
    assert n != k;
  }

  // A transition that commits is one of these; one that does not changes nothing.
  lemma TransitionLaw(rules: Rules, db: Db, claim: Claim, cmd: Command, now: int)
    ensures Commits(rules, db, claim, cmd, now) ==>
              var db' := Transact(rules, db, claim, cmd, now);
              && claim.id in db && claim.id in db' && db' == db[claim.id := db'[claim.id]]
              && Transition(rules, claim, db[claim.id], db'[claim.id], cmd, now)
    ensures !Commits(rules, db, claim, cmd, now) ==> Transact(rules, db, claim, cmd, now) == db
  {
    hide ValidSelection, GivenUp;
    if Commits(rules, db, claim, cmd, now) && cmd.Advance? { AdvanceGivesUp(rules, db[claim.id], claim, cmd.outcome, cmd.code); GivenUpSettled(db[claim.id], Written(rules, db[claim.id], claim, cmd), claim.job.ordinal.value, cmd.outcome, now); }
  }

  lemma GivenUpSettled(row: Row, row': Row, k: int, outcome: Outcome, now: int)
    requires GivenUp(row, row', k, outcome)
    ensures GivenUp(row, Settled(row', now), k, outcome)
  {
  }
}

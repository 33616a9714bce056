/** The job repository: its stored rows and the transactions that change them. */
module JobRepository {
  import opened Options
  import opened Sorting
  import opened JobModel

  // Committed, rejected by validation, or refused by the guarded update (stale claim or constraint).
  datatype Reply = Done | Invalid | Refused

  class Repository {
    const rules: Rules
    var jobs: Db

    constructor (rules: Rules)
      ensures this.rules == rules && jobs == map[]
    {
      this.rules := rules;
      jobs := map[];
    }

    method FindActive(intentKey: string) returns (found: Option<string>)
      ensures found.None? <==> forall j :: !ActiveFor(jobs, j, intentKey)
      ensures found.Some? ==> ActiveFor(jobs, found.value, intentKey)
    {
      found := None;
      var left := jobs.Keys;
      while left != {} && found.None?
        invariant left <= jobs.Keys
        invariant found.None? ==> forall j | j in jobs && j !in left :: !ActiveFor(jobs, j, intentKey)
        invariant found.Some? ==> ActiveFor(jobs, found.value, intentKey)
        decreases left
      {
        var j :| j in left;
        left := left - {j};
        if Active(jobs[j]) && jobs[j].intentKey == intentKey { found := Some(j); }
      }
    }

    method Submit(id: string, request: Request, now: int) returns (r: Submitted)
      modifies this`jobs
      ensures SubmitDone(rules, old(jobs), id, request, now, r)
      ensures jobs == if r.Accepted? then r.db else old(jobs)
    {
      var queued := NewRow(rules, request, now);
      if !Loadable(rules, id, queued) { return Rejected; }
      var existing := FindActive(queued.intentKey);
      if existing.Some? {
        assert ActiveFor(jobs, existing.value, rules.intentKey(request));
        r := if Loadable(rules, existing.value, jobs[existing.value]) then Accepted(jobs, existing.value, false) else Rejected;
      } else if id in jobs {
        r := Rejected;
      } else {
        jobs := jobs[id := queued];
        r := Accepted(jobs, id, true);
      }
    }

    // ORDER BY next_attempt_unix_ms, created_unix_ms, id LIMIT 1
    method Earliest(now: int) returns (first: Option<string>)
      ensures first.None? <==> forall j | j in jobs :: !Claimable(jobs[j], now)
      ensures first.Some? ==> FirstInLine(jobs, now, first.value)
    {
      first := None;
      var left := jobs.Keys;
      while left != {}
        invariant left <= jobs.Keys
        invariant first.None? ==> forall j | j in jobs && j !in left :: !Claimable(jobs[j], now)
        invariant first.Some? ==> first.value in jobs && first.value !in left && Claimable(jobs[first.value], now)
        invariant first.Some? ==> forall j | j in jobs && j !in left && Claimable(jobs[j], now) && j != first.value ::
                    Ahead(first.value, jobs[first.value], j, jobs[j])
        decreases left
      {
        var j :| j in left;
        left := left - {j};
        if Claimable(jobs[j], now) {
          if first.None? {
            first := Some(j);
          } else {
            AheadTotal(first.value, jobs[first.value], j, jobs[j]);
            if Ahead(j, jobs[j], first.value, jobs[first.value]) {
              forall k | k in jobs && k !in left && Claimable(jobs[k], now) && k != j ensures Ahead(j, jobs[j], k, jobs[k]) {
                if k != first.value { AheadTransitive(j, jobs[j], first.value, jobs[first.value], k, jobs[k]); }
              }
              first := Some(j);
            }
          }
        }
      }
    }

    method Claim(now: int, duration: int) returns (r: Claimed)
      modifies this`jobs
      ensures jobs == ClaimDb(old(jobs), now, duration)
      ensures r == ClaimReply(rules, old(jobs), now, duration)
    {
      if duration <= 0 { return BadDuration; }
      var first := Earliest(now);
      if first.None? { return Nothing; }
      var id := first.value;
      FirstUnique(jobs, now, id, Front(jobs, now));
      var row := Leased(jobs[id], now, duration);
      jobs := jobs[id := row];
      r := if Loadable(rules, id, row) && row.leaseVersion >= 1 then Got(JobModel.Claim(id, row, row.leaseVersion)) else Unloadable;
    }

    // transitionWithStates: one guarded update.
    method Transition(claim: JobModel.Claim, cmd: Command, now: int) returns (reply: Reply)
      requires Accepts(rules, claim, cmd, now)
      modifies this`jobs
      ensures jobs == Transact(rules, old(jobs), claim, cmd, now)
      ensures reply == if Commits(rules, old(jobs), claim, cmd, now) then Done else Refused
    {
      hide Accepts, Loadable;
      if Holding(jobs, claim, now) && Admits(rules, jobs[claim.id], claim, cmd) {
        PlanNonempty(rules, claim, cmd, now);
        jobs := jobs[claim.id := Settled(Written(rules, jobs[claim.id], claim, cmd), now)];
        reply := Done;
      } else {
        reply := Refused;
      }
    }

    method ValidateCandidatePlan(candidates: seq<Candidate>) returns (ok: bool)
      ensures ok <==> ValidPlan(rules, candidates)
    {
      if |candidates| == 0 || |candidates| > MaximumJobCandidates { return false; }
      var identities: set<SelectionKey> := {};
      var i := 0;
      while i < |candidates|
        invariant 0 <= i <= |candidates|
        invariant forall j | 0 <= j < i :: ValidCandidate(rules, candidates[j], j)
        invariant forall k :: k in identities <==> exists j :: 0 <= j < i && KeyOf(candidates[j].selection) == k
        invariant forall j, k | 0 <= j < k < i :: KeyOf(candidates[j].selection) != KeyOf(candidates[k].selection)
      {
        if !ValidCandidate(rules, candidates[i], i) { return false; }
        var key := KeyOf(candidates[i].selection);
        if key in identities { return false; }
        identities := identities + {key};
        i := i + 1;
      }
      ok := true;
    }

    method Plan(claim: JobModel.Claim, candidates: seq<Candidate>, now: int) returns (reply: Reply)
      modifies this`jobs
      ensures jobs == Transact(rules, old(jobs), claim, Command.Plan(candidates), now)
      ensures reply.Done? <==> Commits(rules, old(jobs), claim, Command.Plan(candidates), now)
      ensures reply.Invalid? <==> !Accepts(rules, claim, Command.Plan(candidates), now)
    {
      var ok := ValidateCandidatePlan(candidates);
      if !ok || claim.id == "" || claim.version < 1 { return Invalid; }
      reply := Transition(claim, Command.Plan(candidates), now);
    }

    method AttachPrepared(claim: JobModel.Claim, created: CreatedObject, owned: bool, now: int) returns (reply: Reply)
      modifies this`jobs
      ensures jobs == Transact(rules, old(jobs), claim, Attach(created, owned), now)
      ensures reply.Done? <==> Commits(rules, old(jobs), claim, Attach(created, owned), now)
      ensures reply.Invalid? <==> !Accepts(rules, claim, Attach(created, owned), now)
    {
      if !rules.obj(created) || claim.id == "" || claim.version < 1 { return Invalid; }
      reply := Transition(claim, Attach(created, owned), now);
    }

    // SELECT ... WHERE outcome = 'pending' ORDER BY ordinal LIMIT 1
    method NextPending(plan: seq<Candidate>) returns (n: nat)
      ensures n == FirstPending(plan, 0)
    {
      n := 0;
      while n < |plan| && plan[n].outcome != Pending
        invariant n <= |plan| && FirstPending(plan, 0) == FirstPending(plan, n)
      {
        n := n + 1;
      }
    }

    // Two guarded updates in one transaction, rolled back together; more: another candidate was selected.
    method Advance(claim: JobModel.Claim, outcome: Outcome, code: ErrorCode, now: int) returns (reply: Reply, more: bool)
      modifies this`jobs
      ensures jobs == Transact(rules, old(jobs), claim, Command.Advance(outcome, code), now)
      ensures reply.Done? <==> Commits(rules, old(jobs), claim, Command.Advance(outcome, code), now)
      ensures reply.Invalid? <==> !Accepts(rules, claim, Command.Advance(outcome, code), now)
      ensures more ==> reply.Done?
      ensures reply.Done? ==> (more <==> jobs[claim.id].state == Selected)
    {
      hide Loadable;
      var cmd := Command.Advance(outcome, code);
      more := false;
      if !Accepts(rules, claim, cmd, now) { return Invalid, false; }
      if claim.id !in jobs { return Refused, false; }
      var row, ordinal := jobs[claim.id], claim.job.ordinal.value;
      if !HasChosen(row, ordinal) { return Refused, false; }
      var marked := Marked(row.plan, ordinal, outcome);
      var n := NextPending(marked);
      var next := row;
      if n < |marked| {
        if !ValidSelection(rules, marked[n].selection) || marked[n].ordinal >= MaximumJobCandidates { return Refused, false; }
        next := Choose(row, Marked(marked, n, Chosen), n);
      } else {
        next := row.(state := Failed, selection := None, ordinal := None, created := None, createdByJob := false,
                     error := code, progress := 0, nextAttempt := 0, plan := marked);
      }
      if !(row.leaseVersion == claim.version && row.leaseUntil > now && row.state == claim.job.state) { return Refused, false; }
      jobs := jobs[claim.id := Settled(next, now)];
      return Done, n < |marked|;
    }

    method Defer(claim: JobModel.Claim, nextAttempt: int, code: ErrorCode, progress: int, now: int) returns (reply: Reply)
      modifies this`jobs
      ensures jobs == Transact(rules, old(jobs), claim, Command.Defer(nextAttempt, code, progress), now)
      ensures reply.Done? <==> Commits(rules, old(jobs), claim, Command.Defer(nextAttempt, code, progress), now)
      ensures reply.Invalid? <==> !Accepts(rules, claim, Command.Defer(nextAttempt, code, progress), now)
    {
      if nextAttempt <= now || progress < 0 || progress >= 100 { return Invalid; }
      if code != NoCode && code != ProviderUnavailable && code != NotAuthorized { return Invalid; }
      if claim.id == "" || claim.version < 1 { return Invalid; }
      reply := Transition(claim, Command.Defer(nextAttempt, code, progress), now);
    }

    method Succeed(claim: JobModel.Claim, published: string, now: int) returns (reply: Reply)
      modifies this`jobs
      ensures jobs == Transact(rules, old(jobs), claim, Command.Succeed(published), now)
      ensures reply.Done? <==> Commits(rules, old(jobs), claim, Command.Succeed(published), now)
      ensures reply.Invalid? <==> !Accepts(rules, claim, Command.Succeed(published), now)
    {
      if !Accepts(rules, claim, Command.Succeed(published), now) { return Invalid; }
      reply := Transition(claim, Command.Succeed(published), now);
    }

    method Fail(claim: JobModel.Claim, code: ErrorCode, manualReview: bool, now: int) returns (reply: Reply)
      modifies this`jobs
      ensures jobs == Transact(rules, old(jobs), claim, Command.Fail(code, manualReview), now)
      ensures reply.Done? <==> Commits(rules, old(jobs), claim, Command.Fail(code, manualReview), now)
      ensures reply.Invalid? <==> !Accepts(rules, claim, Command.Fail(code, manualReview), now)
    {
      if !Accepts(rules, claim, Command.Fail(code, manualReview), now) { return Invalid; }
      reply := Transition(claim, Command.Fail(code, manualReview), now);
    }
  }

  lemma AheadTotal(i: string, x: Row, j: string, y: Row)
    requires i != j
    ensures Ahead(i, x, j, y) || Ahead(j, y, i, x)
  {
    StringAsymmetric(i, j);
  }

  lemma AheadTransitive(i: string, x: Row, j: string, y: Row, k: string, z: Row)
    requires Ahead(i, x, j, y) && Ahead(j, y, k, z)
    ensures Ahead(i, x, k, z)
  {
    if x.nextAttempt == z.nextAttempt && x.createdAt == z.createdAt {
      StringAsymmetric(k, j);
      StringAsymmetric(i, j);
      StringAsymmetric(i, k);
      StringTransitive(k, j, i);
      StringTransitive(j, k, i);
      StringTransitive(i, k, j);
      StringTransitive(k, i, j);
    }
  }
}

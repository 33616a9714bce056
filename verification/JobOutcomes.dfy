/**
 What must have happened before a job ends as it does: success only after a
 playable inspection and a successful publication, a lost candidate only after
 a reply that loses it, failure only when nothing could be tried or every
 candidate was lost.
 */
module JobOutcomes {
  import opened Options
  import opened JobModel
  import opened JobRuns
  import opened JobWorker
  import opened JobReactions
  import opened JobAccount
  import opened JobReviews
  import opened JobSafety
  import opened JobQueue

  /******* Causes in a run *******/

  lemma {:induction false} RunLast(cfg: Config, s: Site, hs: seq<Happening>)
    requires hs != [] && Run(cfg, s, hs).Some?
    ensures var before := Run(cfg, s, hs[..|hs| - 1]);
            && before.Some? && Possible(cfg, before.value, hs[|hs| - 1])
            && Run(cfg, s, hs) == Some(After(cfg, before.value, hs[|hs| - 1]))
    decreases |hs|
  {
    hide Possible, After;
    if |hs| > 1 {
      RunLast(cfg, After(cfg, s, hs[0]), hs[1..]);
      assert hs[1..][..|hs| - 2] == hs[..|hs| - 1][1..];
    }
  }

  // What holds at the end and not at the start was brought about by some step.
  lemma {:induction false} Cause(cfg: Config, s: Site, hs: seq<Happening>, flag: Site -> bool, at: (Site, Happening) -> bool)
    returns (n: nat)
    requires Run(cfg, s, hs).Some? && flag(Run(cfg, s, hs).value) && !flag(s)
    requires forall t, h | Possible(cfg, t, h) && flag(After(cfg, t, h)) :: flag(t) || at(t, h)
    ensures n < |hs| && Run(cfg, s, hs[..n]).Some? && at(Run(cfg, s, hs[..n]).value, hs[n])
    decreases |hs|
  {
    hide Possible, After;
    RunLast(cfg, s, hs);
    var head := hs[..|hs| - 1];
    if flag(Run(cfg, s, head).value) {
      n := Cause(cfg, s, head, flag, at);
      assert head[..n] == hs[..n];
    } else {
      n := |hs| - 1;
    }
  }

  // A call for the job got this reply.
  ghost predicate Replied(s: Site, h: Happening, id: string)
  {
    HasClaim(s) && ClaimOf(s).id == id && Calling(s.phase) && ReplyOf(h).Some?
  }

  // The state of the site as the n-th thing happens.
  ghost function Before(cfg: Config, s: Site, hs: seq<Happening>, n: nat): Site
    requires n < |hs| && Run(cfg, s, hs[..n]).Some?
  {
    Run(cfg, s, hs[..n]).value
  }

  /******* Success *******/

  ghost predicate PlayableAt(s: Site, h: Happening, id: string, objectID: string)
  {
    Replied(s, h, id) && Inspection(s.phase) && ReplyOf(h).value == Playable(objectID)
  }

  ghost predicate PublishedAt(s: Site, h: Happening, id: string, objectID: string)
  {
    Replied(s, h, id) && s.phase.Publishing? && s.phase.objectID == objectID && ReplyOf(h).value.Okay?
  }

  ghost predicate Publishes(s: Site, id: string, objectID: string)
  {
    HasClaim(s) && ClaimOf(s).id == id && s.phase.Publishing? && s.phase.objectID == objectID
  }

  ghost predicate Succeeds(s: Site, id: string, objectID: string)
  {
    || (id in s.jobs.db && s.jobs.db[id].state == Succeeded && s.jobs.db[id].published == objectID)
    || (HasClaim(s) && ClaimOf(s).id == id && Asks(s.phase, Succeed(objectID)))
  }

  lemma PublishingStays(cfg: Config, job: Row, phase: Phase, reply: Reply)
    requires phase.Publishing? && Next(cfg, job, phase, reply).Publishing?
    ensures Next(cfg, job, phase, reply) == phase
  {
  }

  lemma PublishesAfter(cfg: Config, s: Site, h: Happening, id: string, objectID: string)
    requires Possible(cfg, s, h) && Publishes(After(cfg, s, h), id, objectID)
    ensures Publishes(s, id, objectID) || PlayableAt(s, h, id, objectID)
  {
    hide Next, WellFormed, Truthful, Loadable, FirstInLine, Transact, Commits, Inspection;
    if ReplyOf(h).Some? {
      Stays(cfg, Job(s), s.phase, ReplyOf(h).value);
      if s.phase.Publishing? { PublishingStays(cfg, Job(s), s.phase, ReplyOf(h).value); }
      else if Calling(s.phase) { PublishesExactly(cfg, Job(s), s.phase, ReplyOf(h).value, objectID); }
    }
  }

  lemma SucceedsAfterWrite(cfg: Config, s: Site, now: nat, id: string, objectID: string)
    requires Possible(cfg, s, Write(now)) && Succeeds(After(cfg, s, Write(now)), id, objectID)
    ensures Succeeds(s, id, objectID)
  {
    hide Commits, Transact, Transition;
    TransitionLaw(cfg.rules, s.jobs.db, ClaimOf(s), CommandOf(s.phase.decision, now), now);
    if Commits(cfg.rules, s.jobs.db, ClaimOf(s), CommandOf(s.phase.decision, now), now) && id == ClaimOf(s).id {
      SucceedsByCommand(cfg.rules, ClaimOf(s), s.jobs.db[id], After(cfg, s, Write(now)).jobs.db[id], CommandOf(s.phase.decision, now), now);
    }
  }

  lemma SucceedsByCommand(rules: Rules, claim: Claim, row: Row, row': Row, cmd: Command, now: int)
    requires Transition(rules, claim, row, row', cmd, now) && row'.state == Succeeded
    ensures cmd == Succeed(row'.published)
  {
    hide GivenUp;
  }

  lemma SucceedsAfter(cfg: Config, s: Site, h: Happening, id: string, objectID: string)
    requires Possible(cfg, s, h) && Succeeds(After(cfg, s, h), id, objectID)
    ensures Succeeds(s, id, objectID) || PublishedAt(s, h, id, objectID)
  {
    hide Next, WellFormed, Truthful, Loadable, FirstInLine, Transact, Commits;
    if h.Write? {
      SucceedsAfterWrite(cfg, s, h.now, id, objectID);
    } else if ReplyOf(h).Some? {
      Stays(cfg, Job(s), s.phase, ReplyOf(h).value);
      if Calling(s.phase) { SucceedsExactly(cfg, Job(s), s.phase, ReplyOf(h).value, objectID); }
    }
  }

  // A job has succeeded with an object only after an inspection for it found that object playable and its publication
  // succeeded, in this order.
  lemma SucceededWasPublished(cfg: Config, s: Site, hs: seq<Happening>, id: string) returns (m: nat, n: nat)
    requires Fresh(s) && Run(cfg, s, hs).Some?
    requires id in Run(cfg, s, hs).value.jobs.db && Run(cfg, s, hs).value.jobs.db[id].state == Succeeded
    ensures m < n < |hs| && Run(cfg, s, hs[..m]).Some? && Run(cfg, s, hs[..n]).Some?
    ensures var objectID := Run(cfg, s, hs).value.jobs.db[id].published;
            PlayableAt(Before(cfg, s, hs, m), hs[m], id, objectID) && PublishedAt(Before(cfg, s, hs, n), hs[n], id, objectID)
  {
    hide Run, Possible, After, PlayableAt;
    var objectID := Run(cfg, s, hs).value.jobs.db[id].published;
    forall t, h | Possible(cfg, t, h) && Succeeds(After(cfg, t, h), id, objectID) ensures Succeeds(t, id, objectID) || PublishedAt(t, h, id, objectID) {
      SucceedsAfter(cfg, t, h, id, objectID);
    }
    n := Cause(cfg, s, hs, t => Succeeds(t, id, objectID), (t, h) => PublishedAt(t, h, id, objectID));
    forall t, h | Possible(cfg, t, h) && Publishes(After(cfg, t, h), id, objectID) ensures Publishes(t, id, objectID) || PlayableAt(t, h, id, objectID) {
      PublishesAfter(cfg, t, h, id, objectID);
    }
    m := Cause(cfg, s, hs[..n], t => Publishes(t, id, objectID), (t, h) => PlayableAt(t, h, id, objectID));
    assert hs[..n][..m] == hs[..m];
  }

  /******* Lost candidates *******/

  // A call about candidate k got a reply that loses it with this outcome.
  ghost predicate LostAt(s: Site, h: Happening, id: string, k: int, outcome: Outcome)
  {
    Replied(s, h, id) && Job(s).ordinal == Some(k) && Lost(Job(s), s.phase, ReplyOf(h).value, outcome)
  }

  ghost predicate Lost(job: Row, phase: Phase, reply: Reply, outcome: Outcome)
  {
    exists code :: Loses(job, phase, reply, outcome, code, true) || Loses(job, phase, reply, outcome, code, false)
  }

  predicate Dropping(phase: Phase, outcome: Outcome)
  {
    || (phase.Deleting? && phase.outcome == outcome)
    || (phase.Committing? && phase.decision.Do? && phase.decision.cmd.Advance? && phase.decision.cmd.outcome == outcome)
  }

  // The candidate has the outcome, or is about to.
  ghost predicate Drops(s: Site, id: string, k: int, outcome: Outcome)
  {
    || (id in s.jobs.db && 0 <= k < |s.jobs.db[id].plan| && s.jobs.db[id].plan[k].outcome == outcome)
    || (HasClaim(s) && ClaimOf(s).id == id && Job(s).ordinal == Some(k) && Dropping(s.phase, outcome))
  }

  lemma DroppingNext(cfg: Config, job: Row, phase: Phase, reply: Reply, outcome: Outcome)
    requires Calling(phase) && Dropping(Next(cfg, job, phase, reply), outcome)
    ensures Dropping(phase, outcome) || Lost(job, phase, reply, outcome)
  {
    hide Next, Lost, Dropping;
    if phase.Deleting? {
      DeletingStays(cfg, job, phase, reply);
    } else if Next(cfg, job, phase, reply).Deleting? {
      DeletingNext(cfg, job, phase, reply, outcome);
    } else {
      AdvancingNext(cfg, job, phase, reply, outcome);
    }
  }

  lemma DeletingNext(cfg: Config, job: Row, phase: Phase, reply: Reply, outcome: Outcome)
    requires Calling(phase) && !phase.Deleting? && Next(cfg, job, phase, reply).Deleting? && Dropping(Next(cfg, job, phase, reply), outcome)
    ensures Lost(job, phase, reply, outcome)
  {
    hide Next, Loses;
    var next := Next(cfg, job, phase, reply);
    Stays(cfg, job, phase, reply);
    DeletesExactly(cfg, job, phase, reply, outcome, next.code);
  }

  lemma AdvancingNext(cfg: Config, job: Row, phase: Phase, reply: Reply, outcome: Outcome)
    requires Calling(phase) && !phase.Deleting? && !Next(cfg, job, phase, reply).Deleting? && Dropping(Next(cfg, job, phase, reply), outcome)
    ensures Lost(job, phase, reply, outcome)
  {
    hide Next, Loses;
    GivesUpExactly(cfg, job, phase, reply, outcome, Next(cfg, job, phase, reply).decision.cmd.code);
  }

  lemma DeletingStays(cfg: Config, job: Row, phase: Phase, reply: Reply)
    requires phase.Deleting?
    ensures forall outcome | Dropping(Next(cfg, job, phase, reply), outcome) :: Dropping(phase, outcome)
  {
  }

  lemma DropsAfterWrite(cfg: Config, s: Site, now: nat, id: string, k: int, outcome: Outcome)
    requires Possible(cfg, s, Write(now)) && Drops(After(cfg, s, Write(now)), id, k, outcome) && Abandoned(outcome)
    ensures Drops(s, id, k, outcome)
  {
    hide Commits, Transact, Transition;
    TransitionLaw(cfg.rules, s.jobs.db, ClaimOf(s), CommandOf(s.phase.decision, now), now);
    if Commits(cfg.rules, s.jobs.db, ClaimOf(s), CommandOf(s.phase.decision, now), now) && id == ClaimOf(s).id {
      DropsByCommand(cfg.rules, s.jobs.db, ClaimOf(s), CommandOf(s.phase.decision, now), now, k, outcome);
    }
  }

  lemma DropsByCommand(rules: Rules, db: Db, claim: Claim, cmd: Command, now: int, k: int, outcome: Outcome)
    requires Commits(rules, db, claim, cmd, now) && Abandoned(outcome)
    requires var row' := Transact(rules, db, claim, cmd, now)[claim.id]; 0 <= k < |row'.plan| && row'.plan[k].outcome == outcome
    ensures || (0 <= k < |db[claim.id].plan| && db[claim.id].plan[k].outcome == outcome)
            || (cmd.Advance? && cmd.outcome == outcome && claim.job.ordinal == Some(k))
  {
    hide Loadable, ValidSelection;
    TransitionLaw(rules, db, claim, cmd, now);
    assert cmd.Plan? ==> ValidCandidate(rules, cmd.candidates[k], k);
  }

  lemma DropsAfter(cfg: Config, s: Site, h: Happening, id: string, k: int, outcome: Outcome)
    requires Possible(cfg, s, h) && Drops(After(cfg, s, h), id, k, outcome) && Abandoned(outcome)
    ensures Drops(s, id, k, outcome) || LostAt(s, h, id, k, outcome)
  {
    hide Next, WellFormed, Truthful, Loadable, FirstInLine, Transact, Commits, Lost;
    if h.Write? {
      DropsAfterWrite(cfg, s, h.now, id, k, outcome);
    } else if ReplyOf(h).Some? {
      Stays(cfg, Job(s), s.phase, ReplyOf(h).value);
      if Calling(s.phase) && Dropping(Next(cfg, Job(s), s.phase, ReplyOf(h).value), outcome) {
        DroppingNext(cfg, Job(s), s.phase, ReplyOf(h).value, outcome);
      }
    }
  }

  // A candidate is marked stalled, missing or unplayable only after a call about that very candidate got a reply
  // with that meaning.
  lemma MarkedWasLost(cfg: Config, s: Site, hs: seq<Happening>, id: string, k: nat) returns (n: nat)
    requires Fresh(s) && Run(cfg, s, hs).Some? && id in Run(cfg, s, hs).value.jobs.db
    requires k < |Run(cfg, s, hs).value.jobs.db[id].plan| && Abandoned(Run(cfg, s, hs).value.jobs.db[id].plan[k].outcome)
    ensures n < |hs| && Run(cfg, s, hs[..n]).Some?
    ensures LostAt(Before(cfg, s, hs, n), hs[n], id, k, Run(cfg, s, hs).value.jobs.db[id].plan[k].outcome)
  {
    hide Run, Possible, After, LostAt;
    var outcome := Run(cfg, s, hs).value.jobs.db[id].plan[k].outcome;
    forall t, h | Possible(cfg, t, h) && Drops(After(cfg, t, h), id, k, outcome) ensures Drops(t, id, k, outcome) || LostAt(t, h, id, k, outcome) {
      DropsAfter(cfg, t, h, id, k, outcome);
    }
    n := Cause(cfg, s, hs, t => Drops(t, id, k, outcome), (t, h) => LostAt(t, h, id, k, outcome));
  }

  /******* Failed jobs *******/

  // The answers for a queued job held nothing to try, and none that matters failed.
  ghost predicate NothingToTry(cfg: Config, s: Site, h: Happening, id: string)
  {
    && Replied(s, h, id) && s.phase.Resolving? && ReplyOf(h).value.Resolution?
    && var reply := ReplyOf(h).value;
       && !SomethingValid(cfg.rules, reply.search.value, if reply.direct.Some? then reply.direct.value.value else [])
       && (reply.direct.Some? ==> reply.direct.value.failure.None?)
  }

  // The job has failed without a plan, or is about to.
  ghost predicate Unplanned(s: Site, id: string)
  {
    || (id in s.jobs.db && s.jobs.db[id].state == Failed && s.jobs.db[id].plan == [])
    || (HasClaim(s) && ClaimOf(s).id == id && GivingUp(s.phase))
  }

  lemma UnplannedAfterWrite(cfg: Config, s: Site, now: nat, id: string)
    requires Possible(cfg, s, Write(now)) && Unplanned(After(cfg, s, Write(now)), id)
    ensures Unplanned(s, id)
  {
    hide Commits, Transact, Transition;
    TransitionLaw(cfg.rules, s.jobs.db, ClaimOf(s), CommandOf(s.phase.decision, now), now);
    if Commits(cfg.rules, s.jobs.db, ClaimOf(s), CommandOf(s.phase.decision, now), now) && id == ClaimOf(s).id {
      FailsByCommand(cfg.rules, ClaimOf(s), s.jobs.db[id], After(cfg, s, Write(now)).jobs.db[id], CommandOf(s.phase.decision, now), now);
    }
  }

  lemma FailsByCommand(rules: Rules, claim: Claim, row: Row, row': Row, cmd: Command, now: int)
    requires Transition(rules, claim, row, row', cmd, now) && row'.state == Failed && row'.plan == []
    ensures cmd.Fail? && !cmd.manualReview
  {
  }

  lemma UnplannedAfter(cfg: Config, s: Site, h: Happening, id: string)
    requires Possible(cfg, s, h) && Unplanned(After(cfg, s, h), id)
    ensures Unplanned(s, id) || NothingToTry(cfg, s, h, id)
  {
    hide Next, WellFormed, Truthful, Loadable, FirstInLine, Transact, Commits, SomethingValid, Resolved;
    if h.Write? {
      UnplannedAfterWrite(cfg, s, h.now, id);
    } else if ReplyOf(h).Some? {
      var reply := ReplyOf(h).value;
      Stays(cfg, Job(s), s.phase, reply);
      if Calling(s.phase) {
        FailsExactly(cfg, Job(s), s.phase, reply);
        if reply.Resolution? { DecidesExactly(cfg, Job(s), reply.search, reply.direct, reply.cached); }
      }
    }
  }

  lemma UnplannedHadNothing(cfg: Config, s: Site, hs: seq<Happening>, id: string) returns (n: nat)
    requires Fresh(s) && Run(cfg, s, hs).Some? && id in Run(cfg, s, hs).value.jobs.db
    requires Run(cfg, s, hs).value.jobs.db[id].state == Failed && Run(cfg, s, hs).value.jobs.db[id].plan == []
    ensures n < |hs| && Run(cfg, s, hs[..n]).Some? && NothingToTry(cfg, Before(cfg, s, hs, n), hs[n], id)
  {
    hide Run, Possible, After, NothingToTry;
    forall t, h | Possible(cfg, t, h) && Unplanned(After(cfg, t, h), id) ensures Unplanned(t, id) || NothingToTry(cfg, t, h, id) {
      UnplannedAfter(cfg, t, h, id);
    }
    n := Cause(cfg, s, hs, t => Unplanned(t, id), (t, h) => NothingToTry(cfg, t, h, id));
  }

  ghost predicate EachLost(cfg: Config, s: Site, hs: seq<Happening>, id: string, k: int)
  {
    exists n, outcome :: 0 <= n < |hs| && Run(cfg, s, hs[..n]).Some? && LostAt(Before(cfg, s, hs, n), hs[n], id, k, outcome)
  }

  // A job fails only when nothing could be tried, or when every candidate of its plan was lost to a reply of its own.
  lemma FailedWasExhausted(cfg: Config, s: Site, hs: seq<Happening>, id: string)
    requires ValidConfig(cfg) && Fresh(s) && Run(cfg, s, hs).Some?
    requires id in Run(cfg, s, hs).value.jobs.db && Run(cfg, s, hs).value.jobs.db[id].state == Failed
    ensures var plan := Run(cfg, s, hs).value.jobs.db[id].plan;
            if plan == [] then exists n :: 0 <= n < |hs| && Run(cfg, s, hs[..n]).Some? && NothingToTry(cfg, Before(cfg, s, hs, n), hs[n], id)
            else forall k | 0 <= k < |plan| :: EachLost(cfg, s, hs, id, k)
  {
    hide Run, LostAt, NothingToTry, SiteInv;
    var row := Run(cfg, s, hs).value.jobs.db[id];
    if row.plan == [] {
      var n := UnplannedHadNothing(cfg, s, hs, id);
    } else {
      assert Arises(cfg, Run(cfg, s, hs).value);
      AlwaysSafe(cfg, Run(cfg, s, hs).value);
      FailedPlan(cfg, Run(cfg, s, hs).value, id);
      forall k | 0 <= k < |row.plan| ensures EachLost(cfg, s, hs, id, k) {
        var n := MarkedWasLost(cfg, s, hs, id, k);
      }
    }
  }

  lemma FailedPlan(cfg: Config, s: Site, id: string)
    requires SiteInv(cfg, s) && id in s.jobs.db && s.jobs.db[id].state == Failed
    ensures forall k | 0 <= k < |s.jobs.db[id].plan| :: Abandoned(s.jobs.db[id].plan[k].outcome)
  {
    hide Entered, RowsOk, ClaimFresh, AccountOk;
    assert PlanShape(cfg.rules, s.jobs.db[id]);
  }
}

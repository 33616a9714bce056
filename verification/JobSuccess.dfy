/**
 Every active job can still succeed: from any site that arises there is a run,
 with helpful replies and no further requests, that brings the job to the front
 of the queue and through its remaining stages.
 */
module JobSuccess {
  import opened Options
  import opened JobModel
  import opened JobPlanning
  import opened JobPlanProofs
  import opened JobRuns
  import opened JobWorker
  import opened JobReactions
  import opened JobAccount
  import opened JobSafety
  import opened JobQueue

  /******* One step more *******/

  lemma {:induction false} RunNext(cfg: Config, s: Site, hs: seq<Happening>, h: Happening)
    requires Run(cfg, s, hs).Some? && Possible(cfg, Run(cfg, s, hs).value, h)
    ensures Run(cfg, s, hs + [h]) == Some(After(cfg, Run(cfg, s, hs).value, h))
    decreases |hs|
  {
    hide Possible, After;
    if hs == [] {
      assert ([] + [h])[1..] == [];
    } else {
      assert (hs + [h])[1..] == hs[1..] + [h];
      RunNext(cfg, After(cfg, s, hs[0]), hs[1..], h);
    }
  }

  // Some run leads there, and the invariant holds there.
  ghost predicate Leads(cfg: Config, s: Site, t: Site)
  {
    SiteInv(cfg, t) && exists hs :: Run(cfg, s, hs) == Some(t)
  }

  lemma GoOn(cfg: Config, s0: Site, s: Site, h: Happening)
    requires ValidConfig(cfg) && Leads(cfg, s0, s) && Possible(cfg, s, h)
    ensures Leads(cfg, s0, After(cfg, s, h))
  {
    hide Run, Possible, After, SiteInv;
    var hs :| Run(cfg, s0, hs) == Some(s);
    RunNext(cfg, s0, hs, h);
    HappeningKeeps(cfg, s, h);
  }

  // A call is answered.
  lemma Hear(cfg: Config, s0: Site, s: Site, reply: Reply)
    requires ValidConfig(cfg) && Leads(cfg, s0, s) && HasClaim(s) && WellFormed(cfg, reply) && Truthful(s, reply)
    requires !s.phase.Creating? && !s.phase.Deleting?
    ensures Leads(cfg, s0, s.(phase := Next(cfg, Job(s), s.phase, reply)))
  {
    hide Leads, WellFormed, Truthful, Next;
    GoOn(cfg, s0, s, Answered(reply));
  }

  lemma Heard(cfg: Config, u: Site, reply: Reply)
    requires HasClaim(u) && WellFormed(cfg, reply) && !u.phase.Creating? && !u.phase.Deleting? && !u.phase.Finding? && !u.phase.Reconciling?
    ensures Possible(cfg, u, Answered(reply)) && After(cfg, u, Answered(reply)) == u.(phase := Next(cfg, Job(u), u.phase, reply))
    ensures Truthful(u, reply)
  {
    hide WellFormed, Next;
  }

  // The transition is written at a time the lease covers.
  lemma Land(cfg: Config, s0: Site, s: Site, now: nat) returns (t: Site)
    requires ValidConfig(cfg) && Leads(cfg, s0, s) && HasClaim(s) && s.phase.Committing? && s.phase.decision != Stop
    requires s.jobs.clock <= now < Job(s).leaseUntil
    ensures Possible(cfg, s, Write(now)) && t == After(cfg, s, Write(now))
    ensures Leads(cfg, s0, t) && t.phase == Idle && t.born == s.born && t.present == s.present && t.jobs.clock == now
    ensures ClaimOf(s).id in s.jobs.db && ClaimOf(s).id in t.jobs.db && t.jobs.db == s.jobs.db[ClaimOf(s).id := t.jobs.db[ClaimOf(s).id]]
    ensures Transition(cfg.rules, ClaimOf(s), Job(s), t.jobs.db[ClaimOf(s).id], CommandOf(s.phase.decision, now), now)
  {
    hide SiteInv, Run, Transition, Commits, Loadable, Transact;
    t := After(cfg, s, Write(now));
    GoOn(cfg, s0, s, Write(now));
    JobSafety.Parts(cfg, s);
    ClaimIsRow(cfg, s);
    WriteLands(cfg, s, now);
    TransitionLaw(cfg.rules, s.jobs.db, ClaimOf(s), CommandOf(s.phase.decision, now), now);
  }

  // What the worker decided is what the row then says: a retry is due after its wait, with its code and progress, and
  // any other decision is carried out as it is.
  lemma DecisionsLand(cfg: Config, s: Site, now: nat)
    requires ValidConfig(cfg) && Arises(cfg, s) && HasClaim(s) && s.phase.Committing? && s.phase.decision != Stop
    requires s.jobs.clock <= now < Job(s).leaseUntil
    ensures Possible(cfg, s, Write(now)) && After(cfg, s, Write(now)).phase == Idle && ClaimOf(s).id in After(cfg, s, Write(now)).jobs.db
    ensures var row := After(cfg, s, Write(now)).jobs.db[ClaimOf(s).id];
            match s.phase.decision
            case Retry(code, wait, progress) =>
              row == Job(s).(nextAttempt := now + wait, error := code, progress := progress, leaseUntil := 0, updatedAt := now)
            case Do(cmd) => Transition(cfg.rules, ClaimOf(s), Job(s), row, cmd, now)
            case Stop => false
  {
    hide Leads;
    LeadsHere(cfg, s);
    var t := Land(cfg, s, s, now);
  }

  /******* To the front of the queue *******/

  function DueSet(db: Db, now: int): set<string> { set j | j in db && Due(db[j], now) }

  // The job's row under a new lease.
  predicate Renewed(row: Row, row': Row, now: int, duration: int)
  {
    row' == row.(attempt := row.attempt + 1, leaseVersion := row.leaseVersion + 1, leaseUntil := now + duration, updatedAt := now)
  }

  // The worker has just claimed the job.
  ghost predicate Claimed(cfg: Config, s: Site, t: Site, id: string, now: nat)
  {
    && t.born == s.born && t.present == s.present && t.jobs.clock == now
    && t.phase.Starting? && HasClaim(t) && ClaimOf(t).id == id && id in s.jobs.db
    && Renewed(s.jobs.db[id], Job(t), now, cfg.lease)
  }

  // A lease issues a claim on the soonest job that is due.
  lemma Issues(cfg: Config, s: Site, now: nat) returns (j: string)
    requires ValidConfig(cfg) && RowsOk(cfg.rules, s.jobs) && now >= s.jobs.clock && DueSet(s.jobs.db, now) != {}
    ensures j in DueSet(s.jobs.db, now)
    ensures var t := LeaseStep(cfg.rules, s.jobs, now, cfg.lease);
            && j in t.db && t.db == s.jobs.db[j := t.db[j]] && Renewed(s.jobs.db[j], t.db[j], now, cfg.lease)
            && t.issued == s.jobs.issued + [Claim(j, t.db[j], t.db[j].leaseVersion)] && t.clock == now
  {
    hide Loadable, RowsOk, FirstInLine;
    var k :| k in DueSet(s.jobs.db, now);
    LeaseLaw(cfg.rules, s.jobs, now, cfg.lease);
    j :| Taken(cfg.rules, s.jobs, now, cfg.lease, j);
    ClaimLoads(cfg, s.jobs, now);
  }

  // A start claims that job.
  lemma Lead(cfg: Config, s0: Site, s: Site, now: nat) returns (t: Site, j: string)
    requires ValidConfig(cfg) && Leads(cfg, s0, s) && s.phase == Idle && now >= s.jobs.clock && DueSet(s.jobs.db, now) != {}
    ensures Leads(cfg, s0, t) && j in DueSet(s.jobs.db, now) && Claimed(cfg, s, t, j, now)
    ensures t.jobs.db == s.jobs.db[j := Job(t)]
  {
    hide Leads, LeaseStep;
    t := After(cfg, s, Start(now));
    GoOn(cfg, s0, s, Start(now));
    LeadRows(cfg, s0, s);
    j := Issues(cfg, s, now);
  }

  lemma LeadRows(cfg: Config, s0: Site, s: Site)
    requires Leads(cfg, s0, s)
    ensures RowsOk(cfg.rules, s.jobs)
  {
    hide Run, RowsOk, Inv, ClaimFresh, AccountOk;
  }

  // Whoever is claimed before the job is put off until later; then the job is claimed.
  lemma {:induction false} Turn(cfg: Config, s0: Site, s: Site, id: string, now: nat) returns (t: Site)
    requires ValidConfig(cfg) && Leads(cfg, s0, s) && s.phase == Idle && now >= s.jobs.clock && id in DueSet(s.jobs.db, now)
    ensures Leads(cfg, s0, t) && Claimed(cfg, s, t, id, now)
    decreases |DueSet(s.jobs.db, now)|
  {
    hide Leads;
    var u, j := Lead(cfg, s0, s, now);
    if j == id {
      t := u;
    } else {
      var v := PutOff(cfg, s0, u, now);
      assert DueSet(v.jobs.db, now) == DueSet(s.jobs.db, now) - {j};
      t := Turn(cfg, s0, v, id, now);
    }
  }

  // The providers are unavailable, so the claimed job waits.
  lemma PutOff(cfg: Config, s0: Site, s: Site, now: nat) returns (t: Site)
    requires ValidConfig(cfg) && Leads(cfg, s0, s) && HasClaim(s) && s.phase.Starting? && s.jobs.clock == now < Job(s).leaseUntil
    ensures Leads(cfg, s0, t) && t.phase == Idle && t.born == s.born && t.present == s.present && t.jobs.clock == now
    ensures ClaimOf(s).id in t.jobs.db && t.jobs.db == s.jobs.db[ClaimOf(s).id := t.jobs.db[ClaimOf(s).id]]
    ensures t.jobs.db[ClaimOf(s).id].nextAttempt > now
  {
    hide Leads;
    Hear(cfg, s0, s, Failing(Unavailable));
    t := Land(cfg, s0, s.(phase := Next(cfg, Job(s), s.phase, Failing(Unavailable))), now);
  }

  /******* The stages *******/

  // Inspected, published and written while the lease lasts, a job that is being prepared succeeds.
  lemma Finish(cfg: Config, s0: Site, s: Site, objectID: string, now: nat) returns (t: Site)
    requires ValidConfig(cfg) && Leads(cfg, s0, s) && HasClaim(s) && Job(s).state == Preparing && Inspection(s.phase)
    requires s.jobs.clock <= now < Job(s).leaseUntil && objectID != "" && cfg.rules.published(objectID)
    ensures Leads(cfg, s0, t) && ClaimOf(s).id in t.jobs.db
    ensures t.jobs.db[ClaimOf(s).id].state == Succeeded && t.jobs.db[ClaimOf(s).id].published == objectID
  {
    hide Leads;
    Hear(cfg, s0, s, Playable(objectID));
    var u := s.(phase := Publishing(s.phase.c, objectID));
    Hear(cfg, s0, u, Okay);
    t := Land(cfg, s0, s.(phase := Committing(s.phase.c, Do(Succeed(objectID)))), now);
  }

  // The same as one run: an inspection that finds the object playable, its publication, and the write.
  lemma InspectPublishWrite(cfg: Config, s: Site, objectID: string, now: nat)
    requires ValidConfig(cfg) && Arises(cfg, s) && HasClaim(s) && Job(s).state == Preparing && Inspection(s.phase)
    requires s.jobs.clock <= now < Job(s).leaseUntil && objectID != "" && cfg.rules.published(objectID)
    ensures var end := Run(cfg, s, [Answered(Playable(objectID)), Answered(Okay), Write(now)]);
            && end.Some? && ClaimOf(s).id in end.value.jobs.db
            && end.value.jobs.db[ClaimOf(s).id].state == Succeeded && end.value.jobs.db[ClaimOf(s).id].published == objectID
  {
    hide Leads, Possible, After, Run;
    var u := s.(phase := Publishing(s.phase.c, objectID));
    var v := s.(phase := Committing(s.phase.c, Do(Succeed(objectID))));
    Heard(cfg, s, Playable(objectID));
    Heard(cfg, u, Okay);
    LeadsHere(cfg, s);
    Hear(cfg, s, s, Playable(objectID));
    Hear(cfg, s, u, Okay);
    var t := Land(cfg, s, v, now);
    RunThree(cfg, s, u, v, t, Answered(Playable(objectID)), Answered(Okay), Write(now));
  }

  lemma LeadsHere(cfg: Config, s: Site)
    requires ValidConfig(cfg) && Arises(cfg, s)
    ensures Leads(cfg, s, s)
  {
    hide SiteInv, Arises;
    AlwaysSafe(cfg, s);
    assert Run(cfg, s, []) == Some(s);
  }

  lemma RunThree(cfg: Config, s: Site, u: Site, v: Site, t: Site, a: Happening, b: Happening, c: Happening)
    requires Possible(cfg, s, a) && After(cfg, s, a) == u && Possible(cfg, u, b) && After(cfg, u, b) == v
    requires Possible(cfg, v, c) && After(cfg, v, c) == t
    ensures Run(cfg, s, [a, b, c]) == Some(t)
  {
    hide Possible, After;
    assert [a, b, c][1..] == [b, c] && [b, c][1..] == [c] && [c][1..] == [];
    assert Run(cfg, t, []) == Some(t);
    assert Run(cfg, v, [c]) == Some(t);
    assert Run(cfg, u, [b, c]) == Some(t);
  }

  // The providers are there, and the stage's first call is made.
  lemma Begin(cfg: Config, s0: Site, s: Site) returns (t: Site)
    requires ValidConfig(cfg) && Leads(cfg, s0, s) && HasClaim(s) && s.phase.Starting?
    ensures Leads(cfg, s0, t) && t == s.(phase := Next(cfg, Job(s), s.phase, Built(true)))
  {
    hide Leads, Next;
    Hear(cfg, s0, s, Built(true));
    t := s.(phase := Next(cfg, Job(s), s.phase, Built(true)));
  }

  // A plan with one release.
  lemma PlanOne(cfg: Config, s0: Site, s: Site, r: Release, now: nat) returns (t: Site)
    requires ValidConfig(cfg) && Leads(cfg, s0, s) && HasClaim(s) && Job(s).state == Queued && s.phase.Resolving?
    requires s.jobs.clock <= now < Job(s).leaseUntil && Usable(cfg.rules, r)
    ensures Leads(cfg, s0, t) && t.phase == Idle && t.born == s.born && t.present == s.present && t.jobs.clock == now
    ensures ClaimOf(s).id in t.jobs.db && t.jobs.db[ClaimOf(s).id].state == Selected
  {
    hide Leads, Resolved, Usable;
    var search, cached := Answer([r], None), Answer([], None);
    Hear(cfg, s0, s, Resolution(search, None, cached));
    DecideOne(cfg, Job(s), r);
    t := Land(cfg, s0, s.(phase := Committing(s.phase.c, Resolved(cfg, Job(s), search, None, cached))), now);
  }

  lemma DecideOne(cfg: Config, job: Row, r: Release)
    requires Usable(cfg.rules, r)
    ensures var d := Resolved(cfg, job, Answer([r], None), None, Answer([], None)); d.Do? && d.cmd.Plan?
  {
    hide Resolved, ValidSelection, Probe;
    ProbeAll([r]);
    assert r in Probe([r]) && r.torrent;
    DecidesExactly(cfg, job, Answer([r], None), None, Answer([], None));
  }

  // An object already there is adopted, and otherwise a new one is made.
  lemma Prepare(cfg: Config, s0: Site, s: Site, o: CreatedObject, now: nat) returns (t: Site)
    requires ValidConfig(cfg) && Leads(cfg, s0, s) && HasClaim(s) && Job(s).state == Selected && (s.phase.Finding? || s.phase.PreparingRange?)
    requires s.jobs.clock <= now < Job(s).leaseUntil
    requires cfg.rules.obj(o) && o !in s.born && forall p | p in s.present :: cfg.rules.obj(p)
    ensures Leads(cfg, s0, t) && t.phase == Idle && t.jobs.clock == now
    ensures ClaimOf(s).id in t.jobs.db && t.jobs.db[ClaimOf(s).id].state == Preparing
  {
    hide Leads;
    if s.phase.PreparingRange? {
      t := Adopt(cfg, s0, s, o, now);
    } else if p :| Holds(s, p, HashWanted(Job(s))) {
      t := Adopt(cfg, s0, s, p, now);
    } else {
      t := Create(cfg, s0, s, o, now);
    }
  }

  lemma Adopt(cfg: Config, s0: Site, s: Site, o: CreatedObject, now: nat) returns (t: Site)
    requires ValidConfig(cfg) && Leads(cfg, s0, s) && HasClaim(s) && (s.phase.Finding? || s.phase.PreparingRange?)
    requires s.jobs.clock <= now < Job(s).leaseUntil && cfg.rules.obj(o) && Truthful(s, Object(o))
    ensures Leads(cfg, s0, t) && t.phase == Idle && t.jobs.clock == now
    ensures ClaimOf(s).id in t.jobs.db && t.jobs.db[ClaimOf(s).id].state == Preparing
  {
    hide Leads, Truthful;
    Hear(cfg, s0, s, Object(o));
    t := Land(cfg, s0, s.(phase := Committing(s.phase.c, Do(Attach(o, false)))), now);
  }

  lemma Create(cfg: Config, s0: Site, s: Site, o: CreatedObject, now: nat) returns (t: Site)
    requires ValidConfig(cfg) && Leads(cfg, s0, s) && HasClaim(s) && s.phase.Finding?
    requires s.jobs.clock <= now < Job(s).leaseUntil && cfg.rules.obj(o) && o !in s.born && Truthful(s, NotFound)
    ensures Leads(cfg, s0, t) && t.phase == Idle && t.jobs.clock == now
    ensures ClaimOf(s).id in t.jobs.db && t.jobs.db[ClaimOf(s).id].state == Preparing
  {
    hide Leads, Offered;
    var r := Release(true, "", "", 0, "", HashWanted(Job(s)), None);
    Hear(cfg, s0, s, NotFound);
    assert [r][0] == r;
    OfferedIff(Job(s), [r]);
    Hear(cfg, s0, s.(phase := Searching(s.phase.c)), Listing([r]));
    Hear(cfg, s0, s.(phase := Materializing(s.phase.c)), Okay);
    t := Make(cfg, s0, s.(phase := Creating(s.phase.c)), o, now);
  }

  lemma Make(cfg: Config, s0: Site, s: Site, o: CreatedObject, now: nat) returns (t: Site)
    requires ValidConfig(cfg) && Leads(cfg, s0, s) && HasClaim(s) && s.phase.Creating?
    requires s.jobs.clock <= now < Job(s).leaseUntil && cfg.rules.obj(o) && o !in s.born
    ensures Leads(cfg, s0, t) && t.phase == Idle && t.jobs.clock == now
    ensures ClaimOf(s).id in t.jobs.db && t.jobs.db[ClaimOf(s).id].state == Preparing
  {
    hide Leads;
    GoOn(cfg, s0, s, Created(o, Object(o)));
    t := Land(cfg, s0, After(cfg, s, Created(o, Object(o))), now);
  }

  /******* Any job, from anywhere *******/

  // The worker lets go of what it does and takes up the job, at a time when it is due.
  lemma TakeUp(cfg: Config, s0: Site, s: Site, id: string) returns (t: Site)
    requires ValidConfig(cfg) && Leads(cfg, s0, s) && id in s.jobs.db && Active(s.jobs.db[id])
    ensures Leads(cfg, s0, t) && t.born == s.born && t.present == s.present && HasClaim(t) && ClaimOf(t).id == id
    ensures t.jobs.clock < Job(t).leaseUntil && Job(t).state == s.jobs.db[id].state && Active(Job(t))
    ensures t.phase == FirstCall(t.phase.c, Job(t))
  {
    hide Leads;
    GoOn(cfg, s0, s, Crash);
    var idle, row := After(cfg, s, Crash), s.jobs.db[id];
    var now := s.jobs.clock;
    if row.nextAttempt > now { now := row.nextAttempt; }
    if row.leaseUntil > now { now := row.leaseUntil; }
    var u := Turn(cfg, s0, idle, id, now);
    t := Begin(cfg, s0, u);
  }

  // Every active job can still succeed, with any well-formed object id, as long as the provider accounts hold
  // well-formed objects and can make one more, and some release makes a valid selection.
  lemma EveryJobCanSucceed(cfg: Config, s: Site, id: string, r: Release, o: CreatedObject, objectID: string) returns (t: Site)
    requires ValidConfig(cfg) && Arises(cfg, s) && id in s.jobs.db && Active(s.jobs.db[id])
    requires Usable(cfg.rules, r) && objectID != "" && cfg.rules.published(objectID)
    requires cfg.rules.obj(o) && o !in s.born && forall p | p in s.present :: cfg.rules.obj(p)
    ensures exists hs :: Run(cfg, s, hs) == Some(t)
    ensures id in t.jobs.db && t.jobs.db[id].state == Succeeded && t.jobs.db[id].published == objectID
  {
    hide Usable, SiteInv, Run, Arises;
    LeadsHere(cfg, s);
    t := Complete(cfg, s, s, id, r, o, objectID);
  }

  lemma Complete(cfg: Config, s0: Site, s: Site, id: string, r: Release, o: CreatedObject, objectID: string) returns (t: Site)
    requires ValidConfig(cfg) && Leads(cfg, s0, s) && id in s.jobs.db && Active(s.jobs.db[id])
    requires Usable(cfg.rules, r) && objectID != "" && cfg.rules.published(objectID)
    requires cfg.rules.obj(o) && o !in s.born && forall p | p in s.present :: cfg.rules.obj(p)
    ensures Leads(cfg, s0, t) && id in t.jobs.db && t.jobs.db[id].state == Succeeded && t.jobs.db[id].published == objectID
    decreases match s.jobs.db[id].state case Queued => 3 case Selected => 2 case _ => 1
  {
    hide Leads, Usable;
    var u := TakeUp(cfg, s0, s, id);
    if Job(u).state == Queued {
      var v := PlanOne(cfg, s0, u, r, u.jobs.clock);
      t := Complete(cfg, s0, v, id, r, o, objectID);
    } else {
      if Job(u).state == Selected {
        var v := Prepare(cfg, s0, u, o, u.jobs.clock);
        u := TakeUp(cfg, s0, v, id);
      }
      t := Finish(cfg, s0, u, objectID, u.jobs.clock);
    }
  }
}

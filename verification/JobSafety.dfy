/** Rows stay loadable, the worker never wedges, and no info hash gets a second provider object. */
module JobSafety {
  import opened Options
  import opened JobModel
  import opened JobPlanning
  import opened JobRuns
  import opened JobFencing
  import opened JobWorker
  import opened JobDecisions
  import opened JobAccount

  /******* Rows and claims *******/

  ghost predicate RowOk(rules: Rules, clock: nat, id: string, row: Row)
  {
    Loadable(rules, id, row) && row.updatedAt <= clock && row.leaseVersion >= 0
  }

  ghost predicate RowsOk(rules: Rules, s: System)
  {
    forall id | id in s.db :: RowOk(rules, s.clock, id, s.db[id])
  }

  // While the worker is busy its claim is the job's latest and has not committed.
  ghost predicate ClaimFresh(cfg: Config, s: Site)
  {
    !s.phase.Idle? ==>
      && s.phase.c < |s.jobs.issued| && Current(s.jobs, s.phase.c) && !Spent(s.jobs, s.phase.c)
      && JobOk(cfg.rules, ClaimOf(s)) && PhaseOk(cfg, ClaimOf(s), s.phase)
  }

  /******* The provider account *******/

  ghost predicate Made(s: Site, o: CreatedObject, hash: string) { o in s.born && s.born[o].hash == hash }

  ghost predicate MadeBy(s: Site, o: CreatedObject, hash: string, id: string)
  {
    o in s.born && s.born[o] == Item(hash, Some(id))
  }

  // A job's object has the selected hash, and is the job's own if the row says so.
  ghost predicate AttachedOk(s: Site, id: string, row: Row)
  {
    && (row.createdByJob ==> row.created.Some? && MadeBy(s, row.created.value, HashWanted(row), id))
    && (row.state == Preparing && !IsRange(row) && row.created.Some? ==> Made(s, row.created.value, HashWanted(row)))
  }

  ghost predicate AllAttached(s: Site)
  {
    forall id | id in s.jobs.db :: AttachedOk(s, id, s.jobs.db[id])
  }

  // An object made by a job is the only one with its hash.
  ghost predicate Sole(s: Site)
  {
    && s.present <= s.born.Keys
    && forall o, p | o in s.present && p in s.present && o != p && s.born[o].hash == s.born[p].hash :: s.born[o].creator.None?
  }

  // What the worker knows about the account in each phase.
  ghost predicate Knows(s: Site)
    requires HasClaim(s)
  {
    var hash, id := HashWanted(Job(s)), ClaimOf(s).id;
    match s.phase
    case Searching(_) => forall o :: !Holds(s, o, hash)
    case Materializing(_) => forall o :: !Holds(s, o, hash)
    case Creating(_) => forall o :: !Holds(s, o, hash)
    case Reconciling(_) => forall o | Holds(s, o, hash) :: MadeBy(s, o, hash, id)
    case Committing(_, d) => d.Do? && d.cmd.Attach? ==> Attachable(s, d.cmd.created, d.cmd.owned)
    case _ => true
  }

  ghost predicate Attachable(s: Site, o: CreatedObject, owned: bool)
    requires HasClaim(s)
  {
    && (!IsRange(Job(s)) ==> Made(s, o, HashWanted(Job(s))))
    && (owned ==> MadeBy(s, o, HashWanted(Job(s)), ClaimOf(s).id))
  }

  ghost predicate AccountOk(s: Site)
  {
    Sole(s) && AllAttached(s) && (HasClaim(s) ==> Knows(s))
  }

  ghost predicate SiteInv(cfg: Config, s: Site)
  {
    Inv(cfg.rules, s.jobs) && RowsOk(cfg.rules, s.jobs) && ClaimFresh(cfg, s) && AccountOk(s)
  }

  /******* Steps of the queue *******/

  // The worker's claim still matches its row.
  lemma ClaimIsRow(cfg: Config, s: Site)
    requires Inv(cfg.rules, s.jobs) && ClaimFresh(cfg, s) && !s.phase.Idle?
    ensures HasClaim(s) && ClaimOf(s).id in s.jobs.db && s.jobs.db[ClaimOf(s).id] == Job(s)
  {
    hide Versioned, Logged, OneActive, Planned, AllBounded, JobOk, PhaseOk, Spent;
  }

  lemma SubmitRows(cfg: Config, s: System, id: string, request: Request, now: nat)
    requires RowsOk(cfg.rules, s) && now >= s.clock
    ensures RowsOk(cfg.rules, Step(cfg.rules, s, Submit(id, request, now)))
  {
    hide Loadable;
  }

  lemma RequestKeeps(cfg: Config, s: Site, id: string, request: Request, now: nat)
    requires SiteInv(cfg, s) && now >= s.jobs.clock
    ensures SiteInv(cfg, After(cfg, s, Asked(id, request, now)))
  {
    hide Inv, RowsOk, JobOk, PhaseOk, Loadable;
    var s' := After(cfg, s, Asked(id, request, now));
    StepKeeps(cfg.rules, s.jobs, Submit(id, request, now));
    SubmitRows(cfg, s.jobs, id, request, now);
    assert s'.jobs.issued == s.jobs.issued && s'.jobs.log == s.jobs.log;
    SubmitAccount(cfg, s, id, request, now);
    SubmitFresh(cfg, s, id, request, now);
  }

  lemma SubmitFresh(cfg: Config, s: Site, id: string, request: Request, now: nat)
    requires ClaimFresh(cfg, s) && now >= s.jobs.clock
    ensures ClaimFresh(cfg, After(cfg, s, Asked(id, request, now)))
  {
    hide JobOk, PhaseOk, Loadable;
    var s' := After(cfg, s, Asked(id, request, now));
    if !s.phase.Idle? { assert Spent(s'.jobs, s.phase.c) == Spent(s.jobs, s.phase.c); }
  }

  lemma SubmitAccount(cfg: Config, s: Site, id: string, request: Request, now: nat)
    requires AccountOk(s) && now >= s.jobs.clock
    ensures AccountOk(After(cfg, s, Asked(id, request, now)))
  {
    hide Loadable;
    var s' := After(cfg, s, Asked(id, request, now));
    SameAccount(s, s');
    assert forall j | j in s'.jobs.db :: j in s.jobs.db ==> s'.jobs.db[j] == s.jobs.db[j];
    forall j | j in s'.jobs.db ensures AttachedOk(s', j, s'.jobs.db[j]) {
      if j in s.jobs.db { assert AttachedOk(s, j, s.jobs.db[j]); }
    }
  }

  // Knowledge and uniqueness speak of the account, the claims and the phase only.
  lemma SameAccount(s: Site, s': Site)
    requires Sole(s) && (HasClaim(s) ==> Knows(s))
    requires s'.born == s.born && s'.present == s.present && s'.phase == s.phase && s'.jobs.issued == s.jobs.issued
    ensures Sole(s') && (HasClaim(s') ==> Knows(s'))
  {
    assert forall o, h :: Holds(s', o, h) == Holds(s, o, h);
  }

  /******* Claiming *******/

  lemma StartKeeps(cfg: Config, s: Site, now: nat)
    requires ValidConfig(cfg) && SiteInv(cfg, s) && Possible(cfg, s, Start(now))
    ensures SiteInv(cfg, After(cfg, s, Start(now)))
  {
    hide Inv, Loadable, FirstInLine, JobOk, Spent, AllAttached, Sole, RowsOk, ClaimFresh;
    var s' := After(cfg, s, Start(now));
    StepKeeps(cfg.rules, s.jobs, Lease(now, cfg.lease));
    LeaseRows(cfg, s.jobs, now);
    LeaseFresh(cfg, s, now);
    LeaseAccount(cfg, s, now);
  }

  lemma LeaseRow(cfg: Config, clock: nat, id: string, row: Row, now: nat)
    requires RowOk(cfg.rules, clock, id, row) && now >= clock
    ensures RowOk(cfg.rules, now, id, Leased(row, now, cfg.lease))
    ensures RowOk(cfg.rules, now, id, row)
  {
  }

  lemma LeaseRows(cfg: Config, s: System, now: nat)
    requires RowsOk(cfg.rules, s) && now >= s.clock
    ensures RowsOk(cfg.rules, Step(cfg.rules, s, Lease(now, cfg.lease)))
  {
    hide Loadable, FirstInLine;
    var s' := Step(cfg.rules, s, Lease(now, cfg.lease));
    forall id | id in s'.db ensures RowOk(cfg.rules, now, id, s'.db[id]) {
      LeaseRow(cfg, s.clock, id, s.db[id], now);
    }
  }

  // No stored row is ever refused when it is claimed.
  lemma ClaimLoads(cfg: Config, s: System, now: nat)
    requires ValidConfig(cfg) && RowsOk(cfg.rules, s) && now >= s.clock
    ensures ClaimReply(cfg.rules, s.db, now, cfg.lease) == Nothing || ClaimReply(cfg.rules, s.db, now, cfg.lease).Got?
  {
    hide Loadable, FirstInLine;
    if SomeoneInLine(s.db, now) {
      var id := Front(s.db, now);
      LeaseRow(cfg, s.clock, id, s.db[id], now);
    }
  }

  lemma LeaseFresh(cfg: Config, s: Site, now: nat)
    requires ValidConfig(cfg) && s.phase.Idle? && Inv(cfg.rules, s.jobs) && RowsOk(cfg.rules, s.jobs) && now >= s.jobs.clock
    ensures ClaimFresh(cfg, StartStep(cfg, s, now))
  {
    hide Loadable, PlanShape, FirstInLine, Versioned, Snapshots, OneActive, AllBounded, RowsOk;
    var s' := StartStep(cfg, s, now);
    if s'.phase.Starting? {
      ClaimLoads(cfg, s.jobs, now);
      var id := Front(s.jobs.db, now);
      FrontClaimable(s.jobs.db, now, id);
      var row := Leased(s.jobs.db[id], now, cfg.lease);
      assert s'.jobs.issued[|s.jobs.issued|] == Claim(id, row, row.leaseVersion);
      assert !Spent(s'.jobs, |s.jobs.issued|);
      LeasedShape(cfg, s.jobs.db[id], now);
      assert ValidID(id) by { LoadableID(cfg.rules, id, row); }
    }
  }

  lemma LeasedShape(cfg: Config, row: Row, now: nat)
    requires PlanShape(cfg.rules, row)
    ensures PlanShape(cfg.rules, Leased(row, now, cfg.lease))
  {
  }

  lemma LoadableID(rules: Rules, id: string, row: Row)
    requires Loadable(rules, id, row)
    ensures ValidID(id)
  {
  }

  lemma LeaseAccount(cfg: Config, s: Site, now: nat)
    requires AccountOk(s) && s.phase.Idle? && now >= s.jobs.clock
    ensures AccountOk(StartStep(cfg, s, now))
  {
    hide Loadable, FirstInLine;
    var s' := StartStep(cfg, s, now);
    forall id | id in s'.jobs.db ensures AttachedOk(s', id, s'.jobs.db[id]) {
      assert AttachedOk(s, id, s.jobs.db[id]);
    }
  }

  /******* Provider replies *******/

  // What the worker learns from a reply that changed nothing is true.
  lemma AnswerKnows(cfg: Config, s: Site, reply: Reply)
    requires HasClaim(s) && Knows(s) && PhaseOk(cfg, ClaimOf(s), s.phase) && Possible(cfg, s, Answered(reply))
    ensures var s' := s.(phase := Next(cfg, Job(s), s.phase, reply)); HasClaim(s') ==> Knows(s')
  {
    hide Sound, Resolved, Offered, WellFormed;
    var s' := s.(phase := Next(cfg, Job(s), s.phase, reply));
    assert forall o, h :: Holds(s', o, h) == Holds(s, o, h);
    if s.phase.Resolving? && reply.Resolution? { NeverAttaches(cfg, Job(s), reply.search, reply.direct, reply.cached); }
  }

  lemma NeverAttaches(cfg: Config, job: Row, search: Answer<seq<Release>>, direct: Option<Answer<seq<RangeCandidate>>>, cached: Answer<seq<Release>>)
    ensures var d := Resolved(cfg, job, search, direct, cached); d.Do? ==> !d.cmd.Attach?
  {
  }

  // The phase changes, the claim stays.
  lemma NextClaim(cfg: Config, job: Row, phase: Phase, reply: Reply)
    requires !phase.Idle?
    ensures Next(cfg, job, phase, reply).Idle? || Next(cfg, job, phase, reply).c == phase.c
  {
    hide Resolved, Offered;
  }

  lemma PhaseFresh(cfg: Config, s: Site, s': Site, reply: Reply)
    requires ValidConfig(cfg) && ClaimFresh(cfg, s) && HasClaim(s) && WellFormed(cfg, reply) && s'.jobs == s.jobs
    requires s'.phase == Next(cfg, Job(s), s.phase, reply)
    ensures ClaimFresh(cfg, s')
  {
    hide JobOk, PhaseOk, Next, WellFormed;
    NextClaim(cfg, Job(s), s.phase, reply);
    NextOk(cfg, ClaimOf(s), s.phase, reply);
  }

  lemma AnsweredKeeps(cfg: Config, s: Site, reply: Reply)
    requires ValidConfig(cfg) && SiteInv(cfg, s) && Possible(cfg, s, Answered(reply))
    ensures SiteInv(cfg, After(cfg, s, Answered(reply)))
  {
    hide Inv, RowsOk, JobOk, PhaseOk, Sole, Knows, Next, WellFormed, Truthful, Spent;
    var s' := s.(phase := Next(cfg, Job(s), s.phase, reply));
    assert After(cfg, s, Answered(reply)) == s';
    PhaseFresh(cfg, s, s', reply);
    AnswerKnows(cfg, s, reply);
    SoleStays(s, s');
    AttachedStays(s, s');
  }

  lemma SoleStays(s: Site, s': Site)
    requires Sole(s) && s'.born == s.born && s'.present <= s.present
    ensures Sole(s')
  {
  }

  lemma AttachedStays(s: Site, s': Site)
    requires AllAttached(s) && s'.jobs == s.jobs && s'.born.Keys >= s.born.Keys && forall o | o in s.born :: s'.born[o] == s.born[o]
    ensures AllAttached(s')
  {
    forall id | id in s'.jobs.db ensures AttachedOk(s', id, s'.jobs.db[id]) { assert AttachedOk(s, id, s.jobs.db[id]); }
  }

  // The object created is the first with its hash.
  lemma CreatedKeeps(cfg: Config, s: Site, o: CreatedObject, reply: Reply)
    requires ValidConfig(cfg) && SiteInv(cfg, s) && Possible(cfg, s, Created(o, reply))
    ensures SiteInv(cfg, After(cfg, s, Created(o, reply)))
  {
    hide Inv, RowsOk, JobOk, PhaseOk, AllAttached, Sole, Knows, Spent;
    var s' := After(cfg, s, Created(o, reply));
    PhaseFresh(cfg, s, s', reply);
    AttachedStays(s, s');
    CreatedSole(cfg, s, s', o);
    CreatedKnown(cfg, s, o, reply);
  }

  lemma CreatedSole(cfg: Config, s: Site, s': Site, o: CreatedObject)
    requires HasClaim(s) && s.phase.Creating? && Knows(s) && Sole(s) && o !in s.born
    requires s'.born == s.born[o := Item(HashWanted(Job(s)), Some(ClaimOf(s).id))] && s'.present == s.present + {o}
    ensures Sole(s')
  {
    forall p | p in s.present ensures s.born[p].hash != HashWanted(Job(s)) { assert !Holds(s, p, HashWanted(Job(s))); }
  }

  lemma CreatedKnown(cfg: Config, s: Site, o: CreatedObject, reply: Reply)
    requires HasClaim(s) && Knows(s) && PhaseOk(cfg, ClaimOf(s), s.phase) && Possible(cfg, s, Created(o, reply))
    ensures var s' := After(cfg, s, Created(o, reply)); HasClaim(s') ==> Knows(s')
  {
    hide Sound;
    var s' := After(cfg, s, Created(o, reply));
    assert forall p, h | p != o :: Holds(s', p, h) == Holds(s, p, h);
  }

  lemma DeletedKeeps(cfg: Config, s: Site, reply: Reply)
    requires ValidConfig(cfg) && SiteInv(cfg, s) && Possible(cfg, s, Deleted(reply))
    ensures SiteInv(cfg, After(cfg, s, Deleted(reply)))
  {
    hide Inv, RowsOk, JobOk, PhaseOk, AllAttached, Sole, Spent;
    var s' := After(cfg, s, Deleted(reply));
    PhaseFresh(cfg, s, s', reply);
    AttachedStays(s, s');
    SoleStays(s, s');
  }

  lemma VanishKeeps(cfg: Config, s: Site, o: CreatedObject)
    requires SiteInv(cfg, s)
    ensures SiteInv(cfg, After(cfg, s, Vanish(o)))
  {
    hide Inv, RowsOk, JobOk, PhaseOk, AllAttached, Sole, Spent;
    var s' := After(cfg, s, Vanish(o));
    assert forall p, h :: Holds(s', p, h) ==> Holds(s, p, h);
    AttachedStays(s, s');
    SoleStays(s, s');
    assert ClaimFresh(cfg, s');
  }

  lemma CrashKeeps(cfg: Config, s: Site)
    requires SiteInv(cfg, s)
    ensures SiteInv(cfg, After(cfg, s, Crash))
  {
    hide Inv, RowsOk, JobOk, PhaseOk, AllAttached, Sole, Spent;
    AttachedStays(s, s.(phase := Idle));
    SoleStays(s, s.(phase := Idle));
  }

  /******* Committing *******/

  // The decision commits and leaves a loadable row.
  ghost predicate Lands(rules: Rules, db: Db, claim: Claim, d: Decision, now: nat)
    requires d != Stop
  {
    && Commits(rules, db, claim, CommandOf(d, now), now)
    && var db' := Transact(rules, db, claim, CommandOf(d, now), now);
       claim.id in db' && Loadable(rules, claim.id, db'[claim.id])
  }

  lemma WorksLands(rules: Rules, db: Db, claim: Claim, d: Decision, now: nat)
    requires d != Stop && claim.id in db && db[claim.id] == claim.job && Works(rules, claim, d, now)
    requires claim.job.leaseVersion == claim.version && now < claim.job.leaseUntil
    ensures Lands(rules, db, claim, d, now)
  {
    hide Accepts, Admits, Loadable, Written;
  }

  // Sent before the lease expires, the worker's transition lands.
  lemma WriteLands(cfg: Config, s: Site, now: nat)
    requires HasClaim(s) && s.phase.Committing? && s.phase.decision != Stop && s.jobs.clock <= now < Job(s).leaseUntil
    requires SiteInv(cfg, s)
    ensures Lands(cfg.rules, s.jobs.db, ClaimOf(s), s.phase.decision, now)
  {
    hide Inv, Works, Loadable, AccountOk, PlanShape, Lands;
    ClaimIsRow(cfg, s);
    assert RowOk(cfg.rules, s.jobs.clock, ClaimOf(s).id, Job(s));
    assert Works(cfg.rules, ClaimOf(s), s.phase.decision, now);
    ClaimVersion(cfg, s);
    WorksLands(cfg.rules, s.jobs.db, ClaimOf(s), s.phase.decision, now);
  }

  lemma ClaimVersion(cfg: Config, s: Site)
    requires Inv(cfg.rules, s.jobs) && HasClaim(s)
    ensures Job(s).leaseVersion == ClaimOf(s).version
  {
    hide Snapshots, Logged, OneActive, Planned, AllBounded;
  }

  lemma WriteRows(cfg: Config, s: Site, now: nat)
    requires SiteInv(cfg, s) && Possible(cfg, s, Write(now))
    ensures RowsOk(cfg.rules, WriteStep(cfg, s, now).jobs)
  {
    hide Inv, Accepts, Admits, Loadable, Written, AccountOk, PlanShape, ClaimFresh, SiteInv, Commits;
    assert Inv(cfg.rules, s.jobs) && RowsOk(cfg.rules, s.jobs) && ClaimFresh(cfg, s) by { Parts(cfg, s); }
    ClaimIsRow(cfg, s);
    var claim, cmd := ClaimOf(s), CommandOf(s.phase.decision, now);
    var s' := WriteStep(cfg, s, now);
    if Commits(cfg.rules, s.jobs.db, claim, cmd, now) {
      WriteInTime(cfg, s, cmd, now);
      WriteLands(cfg, s, now);
      SettledFacts(cfg.rules, s.jobs.db, claim, cmd, now);
    }
  }

  lemma Parts(cfg: Config, s: Site)
    requires SiteInv(cfg, s)
    ensures Inv(cfg.rules, s.jobs) && RowsOk(cfg.rules, s.jobs) && ClaimFresh(cfg, s) && AccountOk(s)
  {
  }

  lemma WriteInTime(cfg: Config, s: Site, cmd: Command, now: nat)
    requires HasClaim(s) && ClaimOf(s).id in s.jobs.db && s.jobs.db[ClaimOf(s).id] == Job(s)
    requires Commits(cfg.rules, s.jobs.db, ClaimOf(s), cmd, now)
    ensures now < Job(s).leaseUntil
  {
  }

  lemma SettledFacts(rules: Rules, db: Db, claim: Claim, cmd: Command, now: nat)
    requires Commits(rules, db, claim, cmd, now) && db[claim.id].leaseVersion >= 0
    ensures var db' := Transact(rules, db, claim, cmd, now);
            && claim.id in db' && db'[claim.id].updatedAt == now && db'[claim.id].leaseVersion >= 0
            && db' == db[claim.id := db'[claim.id]]
  {
    hide Accepts;
    assert Accepts(rules, claim, cmd, now);
    PlanNonempty(rules, claim, cmd, now);
  }

  // The committed row's object is what the worker knew it to be.
  lemma WriteAttached(cfg: Config, s: Site, now: nat)
    requires SiteInv(cfg, s) && Possible(cfg, s, Write(now))
    ensures AllAttached(WriteStep(cfg, s, now))
  {
    hide Inv, Accepts, Loadable, PlanShape, ClaimFresh, SiteInv, Commits, RowsOk, Sole, Transact;
    Parts(cfg, s);
    ClaimIsRow(cfg, s);
    var claim, cmd := ClaimOf(s), CommandOf(s.phase.decision, now);
    var s' := WriteStep(cfg, s, now);
    assert AttachedOk(s, claim.id, Job(s));
    WriteEffect(cfg.rules, s.jobs.db, claim, cmd, now);
    forall id | id in s'.jobs.db ensures AttachedOk(s', id, s'.jobs.db[id]) {
      if id in s.jobs.db { assert AttachedOk(s, id, s.jobs.db[id]); }
    }
  }

  // A transition changes one row; only Attach gives it an object.
  lemma WriteEffect(rules: Rules, db: Db, claim: Claim, cmd: Command, now: nat)
    requires claim.id in db
    ensures var db' := Transact(rules, db, claim, cmd, now);
            && db'.Keys == db.Keys && (forall id | id in db && id != claim.id :: db'[id] == db[id])
            && var row, row' := db[claim.id], db'[claim.id];
               || (!row'.createdByJob && row'.state != Preparing)
               || (row'.createdByJob == row.createdByJob && row'.created == row.created && row'.selection == row.selection &&
                   (row'.state == Preparing ==> row.state == Preparing))
               || (cmd.Attach? && row'.created == Some(cmd.created) && row'.createdByJob == cmd.owned && row'.selection == row.selection)
  {
    hide Loadable, ValidPlan, ValidSelection;
  }

  lemma WriteKeeps(cfg: Config, s: Site, now: nat)
    requires SiteInv(cfg, s) && Possible(cfg, s, Write(now))
    ensures SiteInv(cfg, After(cfg, s, Write(now)))
  {
    hide Inv, AllAttached, RowsOk, Step, JobOk, PhaseOk, Spent;
    var s' := WriteStep(cfg, s, now);
    StepKeeps(cfg.rules, s.jobs, Commit(s.phase.c, CommandOf(s.phase.decision, now), now));
    WriteRows(cfg, s, now);
    WriteAttached(cfg, s, now);
    SoleStays(s, s');
  }

  /******* Whole runs *******/

  lemma HappeningKeeps(cfg: Config, s: Site, h: Happening)
    requires ValidConfig(cfg) && SiteInv(cfg, s) && Possible(cfg, s, h)
    ensures SiteInv(cfg, After(cfg, s, h))
  {
    hide SiteInv, After;
    match h
    case Asked(id, request, now) => RequestKeeps(cfg, s, id, request, now);
    case Start(now) => StartKeeps(cfg, s, now);
    case Answered(reply) => AnsweredKeeps(cfg, s, reply);
    case Created(o, reply) => CreatedKeeps(cfg, s, o, reply);
    case Deleted(reply) => DeletedKeeps(cfg, s, reply);
    case Write(now) => WriteKeeps(cfg, s, now);
    case Crash => CrashKeeps(cfg, s);
    case Vanish(o) => VanishKeeps(cfg, s, o);
  }

  lemma {:induction false} RunKeeps(cfg: Config, s: Site, hs: seq<Happening>)
    requires ValidConfig(cfg) && SiteInv(cfg, s) && Run(cfg, s, hs).Some?
    ensures SiteInv(cfg, Run(cfg, s, hs).value)
    decreases |hs|
  {
    hide SiteInv, After, Possible;
    if hs != [] {
      HappeningKeeps(cfg, s, hs[0]);
      RunKeeps(cfg, After(cfg, s, hs[0]), hs[1..]);
    }
  }

  lemma StartSafe(cfg: Config, s: Site)
    requires Fresh(s)
    ensures SiteInv(cfg, s)
  {
  }

  lemma AlwaysSafe(cfg: Config, s: Site)
    requires ValidConfig(cfg) && Arises(cfg, s)
    ensures SiteInv(cfg, s)
  {
    var s0, hs :| Fresh(s0) && Run(cfg, s0, hs) == Some(s);
    hide Run, SiteInv;
    StartSafe(cfg, s0);
    RunKeeps(cfg, s0, hs);
  }

  /******* Theorems *******/

  // Every stored row passes the snapshot validator, and every claim that finds a job gets it.
  lemma RowsAlwaysLoad(cfg: Config, s: Site, now: nat)
    requires ValidConfig(cfg) && Arises(cfg, s) && now >= s.jobs.clock
    ensures forall id | id in s.jobs.db :: Loadable(cfg.rules, id, s.jobs.db[id])
    ensures ClaimReply(cfg.rules, s.jobs.db, now, cfg.lease) == Nothing || ClaimReply(cfg.rules, s.jobs.db, now, cfg.lease).Got?
  {
    hide Arises, SiteInv, ClaimReply, Loadable;
    AlwaysSafe(cfg, s);
    Parts(cfg, s);
    ClaimLoads(cfg, s.jobs, now);
    assert forall id | id in s.jobs.db :: RowOk(cfg.rules, s.jobs.clock, id, s.jobs.db[id]);
  }

  // What a row of each state holds.
  ghost predicate MakesSense(row: Row)
  {
    && 0 <= row.progress <= 100 && |row.plan| <= 5 && (row.createdByJob ==> row.created.Some?)
    && match row.state
       case Queued => row.plan == [] && row.selection.None? && row.created.None? && row.published == "" && row.progress == 0
       case Selected => Standing(row) && row.created.None? && row.published == "" && row.progress == 0
       case Preparing => Standing(row) && row.created.Some? && row.published == "" && row.progress <= 99
       case Succeeded => Standing(row) && row.created.Some? && row.published != "" && row.progress == 100 && row.error == NoCode
       case Failed => row.published == "" && row.error != NoCode && !row.createdByJob && forall c | c in row.plan :: c.outcome != Chosen && c.outcome != Pending
       case ManualReview => row.published == "" && row.error == AmbiguousMutation
  }

  // Its selection is that of the one chosen candidate; those before it are lost, those after it wait.
  ghost predicate Standing(row: Row)
  {
    && row.ordinal.Some? && 0 <= row.ordinal.value < |row.plan|
    && row.selection == Some(row.plan[row.ordinal.value].selection) && row.plan[row.ordinal.value].outcome == Chosen
    && (forall i | 0 <= i < row.ordinal.value :: row.plan[i].outcome in {Stalled, Missing, Unplayable})
    && (forall i | row.ordinal.value < i < |row.plan| :: row.plan[i].outcome == Pending)
  }

  lemma RowsMakeSense(cfg: Config, s: Site, id: string)
    requires ValidConfig(cfg) && Arises(cfg, s) && id in s.jobs.db
    ensures MakesSense(s.jobs.db[id])
  {
    hide Arises, AccountOk, ClaimFresh, ValidID, ValidSelection;
    AlwaysSafe(cfg, s);
    assert RowOk(cfg.rules, s.jobs.clock, id, s.jobs.db[id]) && PlanShape(cfg.rules, s.jobs.db[id]);
  }

  // Whatever the providers replied, the transition the worker chose is accepted while its lease lasts.
  lemma NeverWedges(cfg: Config, s: Site, now: nat)
    requires ValidConfig(cfg) && HasClaim(s) && s.phase.Committing? && s.jobs.clock <= now < Job(s).leaseUntil
    requires Arises(cfg, s)
    ensures s.phase.decision != Stop && Lands(cfg.rules, s.jobs.db, ClaimOf(s), s.phase.decision, now)
  {
    hide Arises, SiteInv, Lands, Works;
    AlwaysSafe(cfg, s);
    Parts(cfg, s);
    WriteLands(cfg, s, now);
  }

  // No info hash ever gets a second object: one made by a job is alone with its hash.
  lemma OneObjectPerHash(cfg: Config, s: Site, o: CreatedObject, p: CreatedObject)
    requires ValidConfig(cfg) && Arises(cfg, s) && o in s.present && p in s.present && o != p
    ensures o in s.born && p in s.born && (s.born[o].creator.Some? ==> s.born[o].hash != s.born[p].hash)
  {
    hide Arises, SiteInv, AllAttached, Knows;
    AlwaysSafe(cfg, s);
    Parts(cfg, s);
  }

  // A create takes effect only when the account holds nothing with that hash.
  lemma CreatesOnlyWhenAbsent(cfg: Config, s: Site, o: CreatedObject)
    requires ValidConfig(cfg) && Arises(cfg, s) && HasClaim(s) && s.phase.Creating?
    ensures !Holds(s, o, HashWanted(Job(s)))
  {
    hide Arises, SiteInv, AllAttached, Sole;
    AlwaysSafe(cfg, s);
    Parts(cfg, s);
  }

  // A row says an object is the job's own only if the job created it, for the hash it selected.
  lemma OwnsOnlyWhatItCreated(cfg: Config, s: Site, id: string)
    requires ValidConfig(cfg) && Arises(cfg, s) && id in s.jobs.db && s.jobs.db[id].createdByJob
    ensures s.jobs.db[id].created.Some? && MadeBy(s, s.jobs.db[id].created.value, HashWanted(s.jobs.db[id]), id)
  {
    hide Arises, SiteInv, Knows, Sole;
    AlwaysSafe(cfg, s);
    Parts(cfg, s);
    assert AttachedOk(s, id, s.jobs.db[id]);
  }

  // A delete is only ever sent for an object the claimed job itself created, for the hash it selected.
  lemma DeletesOnlyOwn(cfg: Config, s: Site)
    requires ValidConfig(cfg) && Arises(cfg, s) && HasClaim(s) && s.phase.Deleting?
    ensures Job(s).created.Some? && MadeBy(s, Job(s).created.value, HashWanted(Job(s)), ClaimOf(s).id)
  {
    hide Arises, SiteInv, Inv, JobOk, RowsOk, Knows, Sole;
    AlwaysSafe(cfg, s);
    Parts(cfg, s);
    ClaimIsRow(cfg, s);
    assert AttachedOk(s, ClaimOf(s).id, Job(s));
  }
}

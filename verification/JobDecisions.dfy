/** Every transition the worker picks passes repository validation and leaves a loadable row. */
module JobDecisions {
  import opened Options
  import opened Numbers
  import opened Subsequences
  import opened JobModel
  import opened JobPlanning
  import opened JobPlanProofs
  import opened JobRuns
  import opened JobFencing
  import opened JobWorker

  // What holds of every claimed job: it loads, its plan is in shape, and it is not terminal.
  ghost predicate JobOk(rules: Rules, claim: Claim)
  {
    && Loadable(rules, claim.id, claim.job) && PlanShape(rules, claim.job)
    && Active(claim.job) && claim.version >= 1 && claim.id != ""
  }

  // Sent at any time from the claim on, the command is accepted, applies to the row, and leaves it loadable.
  ghost predicate Works(rules: Rules, claim: Claim, d: Decision, now: int)
    requires d != Stop
  {
    var cmd := CommandOf(d, now);
    && Accepts(rules, claim, cmd, now) && Admits(rules, claim.job, claim, cmd)
    && (cmd.Plan? ==> cmd.candidates != [])
    && Loadable(rules, claim.id, Settled(Written(rules, claim.job, claim, cmd), now))
  }

  ghost predicate Sound(rules: Rules, claim: Claim, d: Decision)
  {
    d != Stop && forall now: int | now >= claim.job.updatedAt :: Works(rules, claim, d, now)
  }

  lemma RetrySound(cfg: Config, claim: Claim, code: ErrorCode, wait: int, progress: int)
    requires JobOk(cfg.rules, claim) && wait > 0 && 0 <= progress < 100
    requires claim.job.state != Preparing ==> progress == 0
    requires code == NoCode || code == ProviderUnavailable || code == NotAuthorized
    ensures Sound(cfg.rules, claim, Retry(code, wait, progress))
  {
    hide ValidID, ValidSelection, PlanShape;
  }

  lemma AttachSound(cfg: Config, claim: Claim, o: CreatedObject, owned: bool)
    requires JobOk(cfg.rules, claim) && cfg.rules.obj(o) && claim.job.state == Selected
    ensures Sound(cfg.rules, claim, Do(Attach(o, owned)))
  {
    hide ValidID, ValidSelection, PlanShape;
  }

  lemma ReviewSound(cfg: Config, claim: Claim)
    requires JobOk(cfg.rules, claim)
    ensures Sound(cfg.rules, claim, Do(Fail(AmbiguousMutation, true)))
  {
    hide ValidID, ValidSelection, PlanShape;
  }

  lemma FailSound(cfg: Config, claim: Claim)
    requires JobOk(cfg.rules, claim) && claim.job.state == Queued
    ensures Sound(cfg.rules, claim, Do(Fail(NoRelease, false)))
  {
    hide ValidID, ValidSelection;
  }

  lemma SucceedSound(cfg: Config, claim: Claim, objectID: string)
    requires JobOk(cfg.rules, claim) && claim.job.state == Preparing && objectID != "" && cfg.rules.published(objectID)
    ensures Sound(cfg.rules, claim, Do(Succeed(objectID)))
  {
    hide ValidID, ValidSelection, PlanShape;
  }

  lemma PlanSound(cfg: Config, claim: Claim, plan: seq<Candidate>)
    requires JobOk(cfg.rules, claim) && claim.job.state == Queued && ValidPlan(cfg.rules, plan)
    ensures Sound(cfg.rules, claim, Do(Plan(plan)))
  {
    hide ValidID, ValidSelection;
    assert ValidCandidate(cfg.rules, plan[0], 0);
  }

  lemma AdvanceSound(cfg: Config, claim: Claim, outcome: Outcome, code: ErrorCode)
    requires JobOk(cfg.rules, claim) && claim.job.state != Queued && Abandoned(outcome) && code != NoCode
    requires claim.job.state == Selected ==> outcome == Missing
    ensures Sound(cfg.rules, claim, Do(Advance(outcome, code)))
  {
    hide ValidID, ValidSelection, PlanShape, AtCandidate, Entered;
    var row := claim.job;
    ActivePlan(cfg.rules, row);
    AdvanceShape(cfg.rules, row, outcome);
    NextValid(cfg.rules, Marked(row.plan, row.ordinal.value, outcome), row.ordinal.value + 1);
  }

  lemma ActivePlan(rules: Rules, row: Row)
    requires PlanShape(rules, row) && Active(row) && row.state != Queued
    ensures PlanAt(row) && HasChosen(row, row.ordinal.value)
  {
  }

  lemma NextValid(rules: Rules, plan: seq<Candidate>, i: nat)
    requires Entered(rules, plan)
    ensures i < |plan| ==> ValidSelection(rules, plan[i].selection) && plan[i].ordinal == i < MaximumJobCandidates
  {
    hide ValidSelection;
  }

  /******* The worker's phases *******/

  // Each phase belongs to a stage of the job; a decision about to be committed is sound.
  ghost predicate PhaseOk(cfg: Config, claim: Claim, phase: Phase)
  {
    var job := claim.job;
    match phase
    case Idle => true
    case Starting(_) => true
    case Resolving(_) => job.state == Queued
    case Finding(_) => job.state == Selected && !IsRange(job)
    case Searching(_) => job.state == Selected && !IsRange(job)
    case Materializing(_) => job.state == Selected && !IsRange(job)
    case Creating(_) => job.state == Selected && !IsRange(job)
    case Reconciling(_) => job.state == Selected && !IsRange(job)
    case PreparingRange(_) => job.state == Selected && IsRange(job)
    case Inspecting(_) => job.state == Preparing && !IsRange(job)
    case InspectingRange(_) => job.state == Preparing && IsRange(job)
    case Publishing(_, objectID) => job.state == Preparing && objectID != "" && cfg.rules.published(objectID)
    case Deleting(_, outcome, code) => job.state == Preparing && job.createdByJob && Abandoned(outcome) && code != NoCode
    case Committing(_, d) => Sound(cfg.rules, claim, d)
  }

  // The progress a stage allows when a call fails.
  lemma FailureSound(cfg: Config, claim: Claim, c: nat, f: Failure)
    requires ValidConfig(cfg) && JobOk(cfg.rules, claim)
    ensures PhaseOk(cfg, claim, Then(c, AfterFailure(cfg, claim.job, f)))
  {
    hide Sound, PlanShape;
    var job := claim.job;
    if f != Interrupted {
      RetrySound(cfg, claim, if f == Unauthorized then NotAuthorized else ProviderUnavailable, cfg.retry, job.progress);
    }
  }

  lemma PollSound(cfg: Config, claim: Claim, c: nat, progress: int)
    requires ValidConfig(cfg) && JobOk(cfg.rules, claim) && claim.job.state == Preparing && 0 <= progress < 100
    ensures PhaseOk(cfg, claim, Committing(c, Retry(NoCode, cfg.poll, Max(claim.job.progress, progress))))
  {
    hide Sound, PlanShape;
    RetrySound(cfg, claim, NoCode, cfg.poll, Max(claim.job.progress, progress));
  }

  lemma AbandonSound(cfg: Config, claim: Claim, c: nat, outcome: Outcome, code: ErrorCode, alreadyMissing: bool)
    requires JobOk(cfg.rules, claim) && claim.job.state != Queued && Abandoned(outcome) && code != NoCode
    requires claim.job.state == Selected ==> outcome == Missing && alreadyMissing
    ensures PhaseOk(cfg, claim, Abandon(c, claim.job, outcome, code, alreadyMissing))
  {
    hide Sound, PlanShape, Loadable;
    AdvanceSound(cfg, claim, outcome, code);
  }

  lemma ResolvedSound(cfg: Config, claim: Claim, c: nat, search: Answer<seq<Release>>, direct: Option<Answer<seq<RangeCandidate>>>, cached: Answer<seq<Release>>)
    requires ValidConfig(cfg) && JobOk(cfg.rules, claim) && claim.job.state == Queued && DistinctBy(DirectList(direct), RangeKey)
    ensures PhaseOk(cfg, claim, Then(c, Resolved(cfg, claim.job, search, direct, cached)))
  {
    hide Sound, JobOk, PlanParts, Selections, AsPlan, ValidPlan, DistinctBy, Probe;
    var hits := if Probe(search.value) == [] || cached.failure.Some? then [] else cached.value;
    var selections := Selections(PlanParts(cfg.rules, search.value, hits, DirectList(direct)));
    FailureSound(cfg, claim, c, Unauthorized);
    FailureSound(cfg, claim, c, Unavailable);
    FailSound(cfg, claim);
    DistinctDirectAccepted(cfg.rules, search.value, hits, DirectList(direct));
    if AsPlan(selections) != [] {
      NoCandidates();
      PlanSound(cfg, claim, AsPlan(selections));
    }
  }

  // Whatever the providers reply, the worker's next phase is in order.
  lemma NextOk(cfg: Config, claim: Claim, phase: Phase, reply: Reply)
    requires ValidConfig(cfg) && JobOk(cfg.rules, claim) && PhaseOk(cfg, claim, phase) && WellFormed(cfg, reply)
    ensures PhaseOk(cfg, claim, Next(cfg, claim.job, phase, reply))
  {
    hide Sound, JobOk, Resolved, AfterFailure, Abandon, Max, DistinctBy, Offered;
    if reply.Failing? && !phase.Idle? && !phase.Committing? { FailureSound(cfg, claim, phase.c, reply.failure); }
    match phase
    case Starting(c) => FailureSound(cfg, claim, c, Unavailable); StageKnown(cfg, claim);
    case Resolving(c) => if reply.Resolution? { ResolvedSound(cfg, claim, c, reply.search, reply.direct, reply.cached); }
    case Finding(c) => AttachOrReview(cfg, claim, reply);
    case Searching(c) => AbandonSound(cfg, claim, c, Missing, MaterializationFailed, true);
    case Materializing(c) =>
    case Creating(c) => AttachOrReview(cfg, claim, reply);
    case Reconciling(c) => AttachOrReview(cfg, claim, reply);
    case PreparingRange(c) => AttachOrReview(cfg, claim, reply); AbandonSound(cfg, claim, c, Missing, NoPlayableMedia, true);
    case Inspecting(c) => InspectionOk(cfg, claim, c, reply);
    case InspectingRange(c) => InspectionOk(cfg, claim, c, reply);
    case Publishing(c, objectID) => SucceedSound(cfg, claim, objectID);
    case Deleting(c, outcome, code) => AdvanceSound(cfg, claim, outcome, code); ReviewSound(cfg, claim);
    case Committing(_, _) =>
    case Idle =>
  }

  lemma StageKnown(cfg: Config, claim: Claim)
    requires JobOk(cfg.rules, claim)
    ensures claim.job.state == Queued || claim.job.state == Selected || claim.job.state == Preparing
  {
  }

  lemma AttachOrReview(cfg: Config, claim: Claim, reply: Reply)
    requires JobOk(cfg.rules, claim) && claim.job.state == Selected && WellFormed(cfg, reply)
    ensures Sound(cfg.rules, claim, Do(Fail(AmbiguousMutation, true)))
    ensures reply.Object? ==> forall owned :: Sound(cfg.rules, claim, Do(Attach(reply.created, owned)))
  {
    hide Sound, JobOk;
    ReviewSound(cfg, claim);
    if reply.Object? {
      AttachSound(cfg, claim, reply.created, true);
      AttachSound(cfg, claim, reply.created, false);
    }
  }

  lemma InspectionOk(cfg: Config, claim: Claim, c: nat, reply: Reply)
    requires ValidConfig(cfg) && JobOk(cfg.rules, claim) && claim.job.state == Preparing && WellFormed(cfg, reply)
    ensures Sound(cfg.rules, claim, Do(Fail(AmbiguousMutation, true)))
    ensures reply.NotReady? ==> PhaseOk(cfg, claim, Committing(c, Retry(NoCode, cfg.poll, Max(claim.job.progress, reply.progress))))
    ensures PhaseOk(cfg, claim, Abandon(c, claim.job, Stalled, PreparationStalled, false))
    ensures PhaseOk(cfg, claim, Abandon(c, claim.job, Missing, NoPlayableMedia, true))
    ensures PhaseOk(cfg, claim, Abandon(c, claim.job, Unplayable, NoPlayableMedia, true))
    ensures PhaseOk(cfg, claim, Abandon(c, claim.job, Unplayable, NoPlayableMedia, false))
  {
    hide Sound, JobOk, Abandon, Max, PhaseOk;
    ReviewSound(cfg, claim);
    if reply.NotReady? { PollSound(cfg, claim, c, reply.progress); }
    AbandonSound(cfg, claim, c, Stalled, PreparationStalled, false);
    AbandonSound(cfg, claim, c, Missing, NoPlayableMedia, true);
    AbandonSound(cfg, claim, c, Unplayable, NoPlayableMedia, true);
    AbandonSound(cfg, claim, c, Unplayable, NoPlayableMedia, false);
  }

  /******* When the worker gives up *******/

  // The provider's state is in doubt: several objects match, a create of unknown effect left no object to adopt, or
  // a delete of unknown effect failed.
  predicate InDoubt(phase: Phase, reply: Reply)
  {
    || (reply.Ambiguous? && (phase.Finding? || phase.Inspecting? || phase.Reconciling?))
    || (phase.Reconciling? && (reply.NotFound? || reply.Failing?))
    || (phase.Deleting? && reply.Failing?)
  }

  // About to ask for a human.
  predicate Reviewing(phase: Phase)
  {
    phase.Committing? && phase.decision.Do? && phase.decision.cmd.Fail? && phase.decision.cmd.manualReview
  }

  // The worker asks for a human exactly when the provider's state is in doubt.
  lemma ReviewExactlyInDoubt(cfg: Config, job: Row, phase: Phase, reply: Reply)
    requires !phase.Idle? && !phase.Committing?
    ensures Reviewing(Next(cfg, job, phase, reply)) <==> InDoubt(phase, reply)
  {
    hide Offered, Probe, PlanParts, Selections, AsPlan;
  }

  /******* A pass ends *******/

  function CallsLeft(phase: Phase): nat
  {
    match phase
    case Idle => 0
    case Starting(_) => 7
    case Finding(_) => 6
    case Searching(_) => 5
    case Materializing(_) => 4
    case Creating(_) => 3
    case Inspecting(_) => 3
    case InspectingRange(_) => 3
    case Resolving(_) => 2
    case PreparingRange(_) => 2
    case Reconciling(_) => 2
    case Publishing(_, _) => 2
    case Deleting(_, _, _) => 2
    case Committing(_, _) => 1
  }

  // A reply the call can give always moves the worker on: at most six calls precede its transition.
  lemma PassEnds(cfg: Config, job: Row, phase: Phase, reply: Reply)
    ensures Next(cfg, job, phase, reply) == phase || CallsLeft(Next(cfg, job, phase, reply)) < CallsLeft(phase)
  {
    hide Resolved, Offered;
  }
}

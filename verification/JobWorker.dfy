/**
 The background worker: what it does with every provider reply, and the one
 durable transition it then asks the repository to make. Each phase is one
 outstanding provider call; a crash at any point returns the worker to Idle.
 */
module JobWorker {
  import opened Options
  import opened Numbers
  import opened Subsequences
  import opened JobModel
  import opened JobPlanning
  import opened JobPlanProofs

  datatype Config = Config(rules: Rules, lease: int, poll: int, retry: int)

  ghost predicate ValidConfig(cfg: Config) { cfg.lease > 0 && cfg.poll > 0 && cfg.retry > 0 }

  datatype Decision = Stop | Retry(code: ErrorCode, wait: int, progress: int) | Do(cmd: Command)

  datatype Phase =
    | Idle
    | Starting(c: nat)
    | Resolving(c: nat)
    | Finding(c: nat)
    | Searching(c: nat)
    | Materializing(c: nat)
    | Creating(c: nat)
    | Reconciling(c: nat)
    | PreparingRange(c: nat)
    | Inspecting(c: nat)
    | InspectingRange(c: nat)
    | Publishing(c: nat, objectID: string)
    | Deleting(c: nat, outcome: Outcome, code: ErrorCode)
    | Committing(c: nat, decision: Decision)

  datatype Reply =
    | Built(ranges: bool)
    | Okay
    | Failing(failure: Failure)
    | Object(created: CreatedObject)
    | NotFound
    | Ambiguous
    | StalledNow
    | NotReady(progress: int)
    | RangeUnplayable
    | NoCandidate
    | Playable(objectID: string)
    | Listing(releases: seq<Release>)
    | Resolution(search: Answer<seq<Release>>, direct: Option<Answer<seq<RangeCandidate>>>, cached: Answer<seq<Release>>)

  // An interrupted call under a cancelled context ends the pass without a transition.
  function AfterFailure(cfg: Config, job: Row, f: Failure): Decision
  {
    match f
    case Interrupted => Stop
    case Unauthorized => Retry(NotAuthorized, cfg.retry, job.progress)
    case Unavailable => Retry(ProviderUnavailable, cfg.retry, job.progress)
  }

  function DirectList(direct: Option<Answer<seq<RangeCandidate>>>): seq<RangeCandidate>
  {
    if direct.Some? then direct.value.value else []
  }

  function DirectFailure(direct: Option<Answer<seq<RangeCandidate>>>): Option<Failure>
  {
    if direct.Some? then direct.value.failure else None
  }

  // resolve: the decision on a queued job.
  function Resolved(cfg: Config, job: Row, search: Answer<seq<Release>>, direct: Option<Answer<seq<RangeCandidate>>>, cached: Answer<seq<Release>>): Decision
  {
    var eligible, ranges := Probe(search.value), DirectList(direct);
    if search.failure.Some? && (DirectFailure(direct).Some? || ranges == []) then AfterFailure(cfg, job, search.failure.value)
    else if eligible != [] && cached.failure.Some? && ranges == [] then AfterFailure(cfg, job, cached.failure.value)
    else
      var hits := if eligible == [] || cached.failure.Some? then [] else cached.value;
      var plan := AsPlan(Selections(PlanParts(cfg.rules, search.value, hits, ranges)));
      if plan != [] then Do(Plan(plan))
      else if DirectFailure(direct).Some? then AfterFailure(cfg, job, DirectFailure(direct).value)
      else Do(Fail(NoRelease, false))
  }

  method Resolve(cfg: Config, job: Row, search: Answer<seq<Release>>, direct: Option<Answer<seq<RangeCandidate>>>, cached: Answer<seq<Release>>)
    returns (decision: Decision)
    ensures decision == Resolved(cfg, job, search, direct, cached)
  {
    hide AsPlan, Selections, PartsOf, Probe;
    var eligible := Eligible(search.value);
    var ranges, directFailure := DirectList(direct), DirectFailure(direct);
    if search.failure.Some? && (directFailure.Some? || ranges == []) { return AfterFailure(cfg, job, search.failure.value); }
    var hits: seq<Release> := [];
    if eligible != [] {
      if cached.failure.Some? && ranges == [] { return AfterFailure(cfg, job, cached.failure.value); }
      if cached.failure.None? { hits := cached.value; }
    }
    var candidates := BuildPlan(cfg.rules, eligible, hits, ranges);
    if candidates == [] {
      if directFailure.Some? { return AfterFailure(cfg, job, directFailure.value); }
      return Do(Fail(NoRelease, false));
    }
    decision := Do(Plan(candidates));
  }

  function Then(c: nat, d: Decision): Phase { if d == Stop then Idle else Committing(c, d) }

  // abandonCandidate: an object this job created is deleted first, unless it is gone already.
  function Abandon(c: nat, job: Row, outcome: Outcome, code: ErrorCode, alreadyMissing: bool): Phase
  {
    if job.createdByJob && !alreadyMissing then Deleting(c, outcome, code) else Committing(c, Do(Advance(outcome, code)))
  }

  function Review(c: nat): Phase { Committing(c, Do(Fail(AmbiguousMutation, true))) }

  predicate IsRange(job: Row) { job.selection.Some? && job.selection.value.Range? }

  function HashWanted(job: Row): string
  {
    if job.selection.Some? && job.selection.value.Torrent? then job.selection.value.infoHash else ""
  }

  predicate Offered(job: Row, releases: seq<Release>)
  {
    exists r :: r in releases && r.torrent && r.infoHash == HashWanted(job)
  }

  // The first call for a claimed job.
  function FirstCall(c: nat, job: Row): Phase
  {
    match job.state
    case Queued => Resolving(c)
    case Selected => if IsRange(job) then PreparingRange(c) else Finding(c)
    case Preparing => if IsRange(job) then InspectingRange(c) else Inspecting(c)
    case _ => Idle
  }

  // The worker's reaction to a reply; replies a call cannot give leave it waiting.
  function Next(cfg: Config, job: Row, phase: Phase, reply: Reply): Phase
  {
    match phase
    case Starting(c) =>
      (match reply
       case Built(ranges) =>
         if job.state != Queued && IsRange(job) && !ranges then Then(c, AfterFailure(cfg, job, Unavailable)) else FirstCall(c, job)
       case Failing(f) => Then(c, AfterFailure(cfg, job, f))
       case _ => phase)
    case Resolving(c) =>
      (match reply
       case Resolution(search, direct, cached) => Then(c, Resolved(cfg, job, search, direct, cached))
       case _ => phase)
    case Finding(c) =>
      (match reply
       case Object(o) => Committing(c, Do(Attach(o, false)))
       case Ambiguous => Review(c)
       case NotFound => Searching(c)
       case Failing(f) => Then(c, AfterFailure(cfg, job, f))
       case _ => phase)
    case Searching(c) =>
      (match reply
       case Listing(releases) =>
         if Offered(job, releases) then Materializing(c) else Abandon(c, job, Missing, MaterializationFailed, true)
       case Failing(f) => Then(c, AfterFailure(cfg, job, f))
       case _ => phase)
    case Materializing(c) =>
      (match reply
       case Okay => Creating(c)
       case Failing(f) => Then(c, AfterFailure(cfg, job, f))
       case _ => phase)
    case Creating(c) =>
      (match reply
       case Object(o) => Committing(c, Do(Attach(o, true)))
       case Failing(f) => if f == Unauthorized then Then(c, AfterFailure(cfg, job, f)) else Reconciling(c)
       case _ => phase)
    case Reconciling(c) =>
      (match reply
       case Object(o) => Committing(c, Do(Attach(o, true)))
       case NotFound => Review(c)
       case Ambiguous => Review(c)
       case Failing(_) => Review(c)
       case _ => phase)
    case PreparingRange(c) =>
      (match reply
       case Object(o) => Committing(c, Do(Attach(o, false)))
       case NotFound => Abandon(c, job, Missing, NoPlayableMedia, true)
       case RangeUnplayable => Abandon(c, job, Missing, NoPlayableMedia, true)
       case Failing(f) => Then(c, AfterFailure(cfg, job, f))
       case _ => phase)
    case Inspecting(c) =>
      (match reply
       case StalledNow => Abandon(c, job, Stalled, PreparationStalled, false)
       case NotReady(progress) => Committing(c, Retry(NoCode, cfg.poll, Max(job.progress, progress)))
       case NotFound => Abandon(c, job, Missing, NoPlayableMedia, true)
       case Ambiguous => Review(c)
       case Failing(f) => Then(c, AfterFailure(cfg, job, f))
       case NoCandidate => Abandon(c, job, Unplayable, NoPlayableMedia, false)
       case Playable(objectID) => Publishing(c, objectID)
       case _ => phase)
    case InspectingRange(c) =>
      (match reply
       case NotReady(progress) => Committing(c, Retry(NoCode, cfg.poll, Max(job.progress, progress)))
       case NotFound => Abandon(c, job, Missing, NoPlayableMedia, true)
       case RangeUnplayable => Abandon(c, job, Unplayable, NoPlayableMedia, true)
       case Failing(f) => Then(c, AfterFailure(cfg, job, f))
       case NoCandidate => Abandon(c, job, Unplayable, NoPlayableMedia, false)
       case Playable(objectID) => Publishing(c, objectID)
       case _ => phase)
    case Publishing(c, objectID) =>
      (match reply
       case Okay => Committing(c, Do(Succeed(objectID)))
       case Failing(f) => Then(c, AfterFailure(cfg, job, f))
       case _ => phase)
    case Deleting(c, outcome, code) =>
      (match reply
       case Okay => Committing(c, Do(Advance(outcome, code)))
       case Failing(_) => Review(c)
       case _ => phase)
    case Committing(_, _) => phase
    case Idle => phase
  }

  // The transition as it is sent, with the retry time counted from now.
  function CommandOf(d: Decision, now: int): Command
    requires d != Stop
  {
    match d
    case Retry(code, wait, progress) => Defer(now + wait, code, progress)
    case Do(cmd) => cmd
  }

  /******* Assumptions about providers *******/

  // Progress below 100 until ready, well-formed identifiers, no direct candidate listed twice.
  ghost predicate WellFormed(cfg: Config, reply: Reply)
  {
    match reply
    case NotReady(progress) => 0 <= progress < 100
    case Object(o) => cfg.rules.obj(o)
    case Playable(objectID) => objectID != "" && cfg.rules.published(objectID)
    case Resolution(_, direct, _) => DistinctBy(DirectList(direct), RangeKey)
    case _ => true
  }
}

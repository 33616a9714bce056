/** A job comes to manual review only after a reply that left the provider's state in doubt. */
module JobReviews {
  import opened Options
  import opened JobModel
  import opened JobWorker
  import opened JobDecisions
  import opened JobAccount

  function ReplyOf(h: Happening): Option<Reply>
  {
    match h
    case Answered(reply) => Some(reply)
    case Created(_, reply) => Some(reply)
    case Deleted(reply) => Some(reply)
    case _ => None
  }

  // A reply to a call made for the job leaves the provider's state in doubt.
  ghost predicate DoubtAt(s: Site, h: Happening, id: string)
  {
    HasClaim(s) && ClaimOf(s).id == id && ReplyOf(h).Some? && InDoubt(s.phase, ReplyOf(h).value)
  }

  // That happens somewhere in the run.
  ghost predicate Doubted(cfg: Config, s: Site, hs: seq<Happening>, id: string)
    decreases |hs|
  {
    hs != [] && Possible(cfg, s, hs[0]) && (DoubtAt(s, hs[0], id) || Doubted(cfg, After(cfg, s, hs[0]), hs[1..], id))
  }

  // The job is under review, or about to be.
  ghost predicate UnderReview(s: Site, id: string)
  {
    || (id in s.jobs.db && s.jobs.db[id].state == ManualReview)
    || (HasClaim(s) && ClaimOf(s).id == id && Reviewing(s.phase))
  }

  // A transition puts a job under review only if it says so.
  lemma TransactReview(rules: Rules, db: Db, claim: Claim, cmd: Command, now: int, id: string)
    requires id in Transact(rules, db, claim, cmd, now) && Transact(rules, db, claim, cmd, now)[id].state == ManualReview
    ensures id in db && (db[id].state == ManualReview || (id == claim.id && cmd.Fail? && cmd.manualReview))
  {
    hide Loadable, ValidPlan, ValidSelection;
  }

  lemma ReplyReview(cfg: Config, s: Site, h: Happening, id: string)
    requires Possible(cfg, s, h) && ReplyOf(h).Some? && UnderReview(After(cfg, s, h), id)
    ensures UnderReview(s, id) || DoubtAt(s, h, id)
  {
    hide Next, InDoubt, WellFormed, Truthful;
    if !s.phase.Committing? { ReviewExactlyInDoubt(cfg, Job(s), s.phase, ReplyOf(h).value); }
    Stays(cfg, Job(s), s.phase, ReplyOf(h).value);
  }

  // The claim stays, and a phase that commits waits.
  lemma Stays(cfg: Config, job: Row, phase: Phase, reply: Reply)
    requires !phase.Idle?
    ensures Next(cfg, job, phase, reply).Idle? || Next(cfg, job, phase, reply).c == phase.c
    ensures phase.Committing? ==> Next(cfg, job, phase, reply) == phase
  {
    hide Resolved, Offered;
  }

  lemma HappeningReview(cfg: Config, s: Site, h: Happening, id: string)
    requires Possible(cfg, s, h) && UnderReview(After(cfg, s, h), id)
    ensures UnderReview(s, id) || DoubtAt(s, h, id)
  {
    hide Loadable, FirstInLine, Next, InDoubt, WellFormed, Truthful, Commits;
    match h
    case Asked(_, _, _) =>
    case Start(_) =>
    case Answered(_) => ReplyReview(cfg, s, h, id);
    case Created(_, _) => ReplyReview(cfg, s, h, id);
    case Deleted(_) => ReplyReview(cfg, s, h, id);
    case Write(now) => TransactReview(cfg.rules, s.jobs.db, ClaimOf(s), CommandOf(s.phase.decision, now), now, id);
    case Crash =>
    case Vanish(_) =>
  }

  lemma {:induction false} RunReview(cfg: Config, s: Site, hs: seq<Happening>, id: string)
    requires Run(cfg, s, hs).Some? && UnderReview(Run(cfg, s, hs).value, id)
    ensures UnderReview(s, id) || Doubted(cfg, s, hs, id)
    decreases |hs|
  {
    hide After, Possible, UnderReview, DoubtAt;
    if hs != [] {
      RunReview(cfg, After(cfg, s, hs[0]), hs[1..], id);
      if UnderReview(After(cfg, s, hs[0]), id) { HappeningReview(cfg, s, hs[0], id); }
    }
  }

  // From an empty queue, over any run with any crashes, a job under manual review has seen such a reply.
  lemma ReviewOnlyInDoubt(cfg: Config, s: Site, hs: seq<Happening>, id: string)
    requires Fresh(s) && Run(cfg, s, hs).Some?
    requires id in Run(cfg, s, hs).value.jobs.db && Run(cfg, s, hs).value.jobs.db[id].state == ManualReview
    ensures Doubted(cfg, s, hs, id)
  {
    hide Run, Doubted;
    RunReview(cfg, s, hs, id);
  }
}

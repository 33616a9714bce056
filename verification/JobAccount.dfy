/**
 Worker, repository and provider account together: one serialized worker that
 may crash between any two steps, provider calls whose replies are arbitrary
 within the stated assumptions, and objects that may vanish from the account.
 born records every object that ever existed and who created it.
 */
module JobAccount {
  import opened Options
  import opened JobModel
  import opened JobRuns
  import opened JobWorker

  datatype Item = Item(hash: string, creator: Option<string>)

  datatype Site = Site(jobs: System, born: map<CreatedObject, Item>, present: set<CreatedObject>, phase: Phase)

  datatype Happening =
    | Asked(id: string, request: Request, now: nat)
    | Start(now: nat)
    | Answered(reply: Reply)                      // a reply; the account is as it was
    | Created(obj: CreatedObject, reply: Reply)   // CreateTorrent took effect, and then replied
    | Deleted(reply: Reply)                       // DeleteCreatedTorrent took effect, and then replied
    | Write(now: nat)
    | Crash
    | Vanish(obj: CreatedObject)

  predicate HasClaim(s: Site) { !s.phase.Idle? && s.phase.c < |s.jobs.issued| }

  function ClaimOf(s: Site): Claim
    requires HasClaim(s)
  {
    s.jobs.issued[s.phase.c]
  }

  function Job(s: Site): Row
    requires HasClaim(s)
  {
    ClaimOf(s).job
  }

  ghost predicate Holds(s: Site, o: CreatedObject, hash: string)
  {
    o in s.present && o in s.born && s.born[o].hash == hash
  }

  // Lookups are current: a found object is there, and nothing is there when none is found.
  ghost predicate Truthful(s: Site, reply: Reply)
    requires HasClaim(s)
  {
    s.phase.Finding? || s.phase.Reconciling? ==>
      && (reply.Object? ==> Holds(s, reply.created, HashWanted(Job(s))))
      && (reply.NotFound? ==> forall o :: !Holds(s, o, HashWanted(Job(s))))
  }

  ghost predicate Possible(cfg: Config, s: Site, h: Happening)
  {
    match h
    case Asked(_, _, now) => now >= s.jobs.clock
    case Start(now) => s.phase.Idle? && now >= s.jobs.clock
    case Answered(reply) =>
      && HasClaim(s) && WellFormed(cfg, reply) && Truthful(s, reply)
      && !(s.phase.Creating? && reply.Object?) && !(s.phase.Deleting? && reply.Okay?)
    // A fresh object; a create refused as unauthorized made nothing.
    case Created(o, reply) =>
      && HasClaim(s) && s.phase.Creating? && o !in s.born && cfg.rules.obj(o)
      && (reply == Object(o) || (reply.Failing? && !reply.failure.Unauthorized?))
    case Deleted(reply) => HasClaim(s) && s.phase.Deleting? && (reply.Okay? || reply.Failing?)
    case Write(now) => HasClaim(s) && s.phase.Committing? && s.phase.decision != Stop && now >= s.jobs.clock
    case Crash => true
    case Vanish(_) => true
  }

  ghost function StartStep(cfg: Config, s: Site, now: nat): Site
    requires now >= s.jobs.clock
  {
    var jobs := Step(cfg.rules, s.jobs, Lease(now, cfg.lease));
    s.(jobs := jobs, phase := if |jobs.issued| > |s.jobs.issued| then Starting(|s.jobs.issued|) else Idle)
  }

  ghost function WriteStep(cfg: Config, s: Site, now: nat): Site
    requires Possible(cfg, s, Write(now))
  {
    s.(jobs := Step(cfg.rules, s.jobs, Commit(s.phase.c, CommandOf(s.phase.decision, now), now)), phase := Idle)
  }

  ghost function After(cfg: Config, s: Site, h: Happening): Site
    requires Possible(cfg, s, h)
  {
    match h
    case Asked(id, request, now) => s.(jobs := Step(cfg.rules, s.jobs, Submit(id, request, now)))
    case Start(now) => StartStep(cfg, s, now)
    case Answered(reply) => s.(phase := Next(cfg, Job(s), s.phase, reply))
    case Created(o, reply) =>
      s.(born := s.born[o := Item(HashWanted(Job(s)), Some(ClaimOf(s).id))], present := s.present + {o},
         phase := Next(cfg, Job(s), s.phase, reply))
    case Deleted(reply) =>
      s.(present := if Job(s).created.Some? then s.present - {Job(s).created.value} else s.present,
         phase := Next(cfg, Job(s), s.phase, reply))
    case Write(now) => WriteStep(cfg, s, now)
    case Crash => s.(phase := Idle)
    case Vanish(o) => s.(present := s.present - {o})
  }

  ghost function Run(cfg: Config, s: Site, hs: seq<Happening>): Option<Site>
    decreases |hs|
  {
    if hs == [] then Some(s)
    else if !Possible(cfg, s, hs[0]) then None
    else Run(cfg, After(cfg, s, hs[0]), hs[1..])
  }

  // An empty queue and any account whose objects somebody else made.
  ghost predicate Fresh(s: Site)
  {
    && s.jobs == Empty && s.phase == Idle && s.present <= s.born.Keys
    && forall o | o in s.born :: s.born[o].creator.None?
  }

  ghost predicate Arises(cfg: Config, s: Site)
  {
    exists s0, hs :: Fresh(s0) && Run(cfg, s0, hs) == Some(s)
  }
}

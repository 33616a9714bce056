/** Which replies make the worker do what: every next phase, with the exact calls and replies that lead to it. */
module JobReactions {
  import opened Options
  import opened JobModel
  import opened Subsequences
  import opened JobPlanning
  import opened JobPlanProofs
  import opened JobWorker

  // A claimed job's call is under way.
  predicate Calling(phase: Phase) { !phase.Idle? && !phase.Committing? }

  predicate Inspection(phase: Phase) { phase.Inspecting? || phase.InspectingRange? }

  predicate Asks(phase: Phase, cmd: Command) { phase.Committing? && phase.decision == Do(cmd) }

  predicate Advancing(phase: Phase, outcome: Outcome, code: ErrorCode)
  {
    phase.Committing? && phase.decision.Do? && phase.decision.cmd.Advance? && phase.decision.cmd.outcome == outcome && phase.decision.cmd.code == code
  }

  // The torrent the job selected is among the releases.
  ghost predicate Wanted(job: Row, releases: seq<Release>)
  {
    exists i :: 0 <= i < |releases| && releases[i].torrent &&
                releases[i].infoHash == if job.selection.Some? && job.selection.value.Torrent? then job.selection.value.infoHash else ""
  }

  /******* Giving a candidate up *******/

  // The replies that lose a candidate, with the outcome and the code recorded; gone: there is nothing left to delete.
  ghost predicate Loses(job: Row, phase: Phase, reply: Reply, outcome: Outcome, code: ErrorCode, gone: bool)
  {
    || (phase.Searching? && reply.Listing? && !Wanted(job, reply.releases) && outcome == Missing && code == MaterializationFailed && gone)
    || (phase.PreparingRange? && (reply.NotFound? || reply.RangeUnplayable?) && outcome == Missing && code == NoPlayableMedia && gone)
    || (phase.Inspecting? && reply.StalledNow? && outcome == Stalled && code == PreparationStalled && !gone)
    || (Inspection(phase) && reply.NotFound? && outcome == Missing && code == NoPlayableMedia && gone)
    || (phase.InspectingRange? && reply.RangeUnplayable? && outcome == Unplayable && code == NoPlayableMedia && gone)
    || (Inspection(phase) && reply.NoCandidate? && outcome == Unplayable && code == NoPlayableMedia && !gone)
  }

  lemma OfferedIff(job: Row, releases: seq<Release>)
    ensures Offered(job, releases) <==> Wanted(job, releases)
  {
    if Offered(job, releases) {
      var r :| r in releases && r.torrent && r.infoHash == HashWanted(job);
      var i :| 0 <= i < |releases| && releases[i] == r;
    }
  }

  lemma NeverGivesUp(cfg: Config, job: Row, search: Answer<seq<Release>>, direct: Option<Answer<seq<RangeCandidate>>>, cached: Answer<seq<Release>>)
    ensures var d := Resolved(cfg, job, search, direct, cached);
            d.Do? ==> (d.cmd.Plan? && d.cmd.candidates != []) || d.cmd == Fail(NoRelease, false)
    ensures var d := Resolved(cfg, job, search, direct, cached);
            d.Retry? ==> (d.code == NotAuthorized || d.code == ProviderUnavailable) && d.wait == cfg.retry && d.progress == job.progress
  {
    hide Probe, PlanParts, Selections, AsPlan;
  }

  // An object the job created is deleted exactly when the candidate is lost and the object is not.
  lemma DeletesExactly(cfg: Config, job: Row, phase: Phase, reply: Reply, outcome: Outcome, code: ErrorCode)
    requires Calling(phase) && !phase.Deleting?
    ensures Dropped(Next(cfg, job, phase, reply), outcome, code) <==> job.createdByJob && Loses(job, phase, reply, outcome, code, false)
  {
    hide Next, Loses, Dropped;
    if Dropped(Next(cfg, job, phase, reply), outcome, code) { DeletedBecause(cfg, job, phase, reply, outcome, code); }
    if Loses(job, phase, reply, outcome, code, false) { LostAfter(cfg, job, phase, reply, outcome, code, false); }
  }

  predicate Dropped(phase: Phase, outcome: Outcome, code: ErrorCode)
  {
    phase.Deleting? && phase.outcome == outcome && phase.code == code
  }

  lemma DeletedBecause(cfg: Config, job: Row, phase: Phase, reply: Reply, outcome: Outcome, code: ErrorCode)
    requires Calling(phase) && !phase.Deleting? && Dropped(Next(cfg, job, phase, reply), outcome, code)
    ensures job.createdByJob && Loses(job, phase, reply, outcome, code, false)
  {
    hide Resolved, Wanted, Offered;
  }

  // A candidate is given up exactly when it is lost with nothing to delete, or what was to delete is deleted.
  lemma GivesUpExactly(cfg: Config, job: Row, phase: Phase, reply: Reply, outcome: Outcome, code: ErrorCode)
    requires Calling(phase)
    ensures Advancing(Next(cfg, job, phase, reply), outcome, code) <==>
            || Loses(job, phase, reply, outcome, code, true)
            || (!job.createdByJob && Loses(job, phase, reply, outcome, code, false))
            || (phase.Deleting? && phase.outcome == outcome && phase.code == code && reply.Okay?)
  {
    hide Loses, Next, Advancing;
    if phase.Deleting? {
      DeletedAfter(cfg, job, phase, reply, outcome, code);
    } else if Advancing(Next(cfg, job, phase, reply), outcome, code) {
      LostBefore(cfg, job, phase, reply, outcome, code);
    }
    if Loses(job, phase, reply, outcome, code, true) { LostAfter(cfg, job, phase, reply, outcome, code, true); }
    if Loses(job, phase, reply, outcome, code, false) { LostAfter(cfg, job, phase, reply, outcome, code, false); }
  }

  lemma LostAfter(cfg: Config, job: Row, phase: Phase, reply: Reply, outcome: Outcome, code: ErrorCode, gone: bool)
    requires Calling(phase) && Loses(job, phase, reply, outcome, code, gone)
    ensures Advancing(Next(cfg, job, phase, reply), outcome, code) <==> gone || !job.createdByJob
    ensures Dropped(Next(cfg, job, phase, reply), outcome, code) <==> !gone && job.createdByJob
    ensures !phase.Deleting?
  {
    hide Resolved, Wanted, Offered;
    if reply.Listing? { OfferedIff(job, reply.releases); }
  }

  lemma LostBefore(cfg: Config, job: Row, phase: Phase, reply: Reply, outcome: Outcome, code: ErrorCode)
    requires Calling(phase) && !phase.Deleting? && Advancing(Next(cfg, job, phase, reply), outcome, code)
    ensures Loses(job, phase, reply, outcome, code, true) || (!job.createdByJob && Loses(job, phase, reply, outcome, code, false))
  {
    hide Resolved, Wanted, Offered;
    if reply.Listing? { OfferedIff(job, reply.releases); }
    if reply.Resolution? { NeverGivesUp(cfg, job, reply.search, reply.direct, reply.cached); }
  }

  lemma DeletedAfter(cfg: Config, job: Row, phase: Phase, reply: Reply, outcome: Outcome, code: ErrorCode)
    requires phase.Deleting?
    ensures Advancing(Next(cfg, job, phase, reply), outcome, code) <==> phase.outcome == outcome && phase.code == code && reply.Okay?
  {
  }

  /******* Publishing *******/

  lemma PublishesExactly(cfg: Config, job: Row, phase: Phase, reply: Reply, objectID: string)
    requires Calling(phase) && !phase.Publishing?
    ensures Next(cfg, job, phase, reply) == Publishing(phase.c, objectID) <==> Inspection(phase) && reply == Playable(objectID)
  {
    hide Resolved, Offered;
  }

  lemma SucceedsExactly(cfg: Config, job: Row, phase: Phase, reply: Reply, objectID: string)
    requires Calling(phase)
    ensures Asks(Next(cfg, job, phase, reply), Succeed(objectID)) <==> phase == Publishing(phase.c, objectID) && reply.Okay?
  {
    hide Resolved, Offered;
    if reply.Resolution? { NeverGivesUp(cfg, job, reply.search, reply.direct, reply.cached); }
  }

  /******* Preparing an object *******/

  // An object is adopted as somebody else's exactly when it was found or is a range, as the job's own exactly when a
  // create returned it or is thought to have made it.
  lemma AttachesExactly(cfg: Config, job: Row, phase: Phase, reply: Reply, o: CreatedObject, owned: bool)
    requires Calling(phase)
    ensures Asks(Next(cfg, job, phase, reply), Attach(o, owned)) <==>
            reply == Object(o) && if owned then phase.Creating? || phase.Reconciling? else phase.Finding? || phase.PreparingRange?
  {
    hide Resolved, Offered;
    if reply.Resolution? { NeverGivesUp(cfg, job, reply.search, reply.direct, reply.cached); }
  }

  // A torrent is created only along one path: not found, offered again, materialized; an unclear create is looked up.
  lemma CreatesExactly(cfg: Config, job: Row, phase: Phase, reply: Reply)
    requires Calling(phase)
    ensures var next := Next(cfg, job, phase, reply);
            next != phase ==>
              && (next.Searching? <==> phase.Finding? && reply.NotFound?)
              && (next.Materializing? <==> phase.Searching? && reply.Listing? && Wanted(job, reply.releases))
              && (next.Creating? <==> phase.Materializing? && reply.Okay?)
              && (next.Reconciling? <==> phase.Creating? && (reply == Failing(Unavailable) || reply == Failing(Interrupted)))
  {
    hide Resolved, Wanted, Offered;
    if reply.Listing? { OfferedIff(job, reply.releases); }
  }

  // With the providers there, the job's stage decides the first call; a range job without a range provider has none.
  lemma FirstCallExactly(cfg: Config, job: Row, c: nat, ranges: bool)
    requires job.state == Queued || job.state == Selected || job.state == Preparing
    ensures var next, range := Next(cfg, job, Starting(c), Built(ranges)), job.selection.Some? && job.selection.value.Range?;
            && (next == Resolving(c) <==> job.state == Queued)
            && (next == Finding(c) <==> job.state == Selected && !range)
            && (next == PreparingRange(c) <==> job.state == Selected && range && ranges)
            && (next == Inspecting(c) <==> job.state == Preparing && !range)
            && (next == InspectingRange(c) <==> job.state == Preparing && range && ranges)
            && (next == Committing(c, Retry(ProviderUnavailable, cfg.retry, job.progress)) <==> job.state != Queued && range && !ranges)
  {
  }

  /******* Trying again later *******/

  // Calls whose failure is a failed pass: all but those that leave the provider's state in doubt.
  predicate Retried(phase: Phase)
  {
    || phase.Starting? || phase.Finding? || phase.Searching? || phase.Materializing? || phase.PreparingRange?
    || phase.Inspecting? || phase.InspectingRange? || phase.Publishing?
  }

  // Outside the decision on a queued job, the pass ends in a deferral exactly for these replies.
  lemma DefersExactly(cfg: Config, job: Row, phase: Phase, reply: Reply, code: ErrorCode, wait: int, progress: int)
    requires Calling(phase) && !phase.Resolving?
    ensures Next(cfg, job, phase, reply) == Committing(phase.c, Retry(code, wait, progress)) <==>
            || (Inspection(phase) && reply.NotReady? && code == NoCode && wait == cfg.poll &&
                progress == if reply.progress > job.progress then reply.progress else job.progress)
            || ((Retried(phase) || phase.Creating?) && reply == Failing(Unauthorized) &&
                code == NotAuthorized && wait == cfg.retry && progress == job.progress)
            || (Retried(phase) && reply == Failing(Unavailable) &&
                code == ProviderUnavailable && wait == cfg.retry && progress == job.progress)
            || (phase.Starting? && reply == Built(false) && job.state != Queued && job.selection.Some? && job.selection.value.Range? &&
                code == ProviderUnavailable && wait == cfg.retry && progress == job.progress)
  {
    hide Resolved, Offered;
  }

  // It ends without any transition exactly when a call is interrupted.
  lemma StopsExactly(cfg: Config, job: Row, phase: Phase, reply: Reply)
    requires Calling(phase) && !phase.Resolving? && (job.state == Queued || job.state == Selected || job.state == Preparing)
    ensures Next(cfg, job, phase, reply) == Idle <==> Retried(phase) && reply == Failing(Interrupted)
  {
    hide Resolved, Offered;
  }

  /******* Deciding on a queued job *******/

  // Something in the answers can be tried: a valid direct candidate, or a probed release that makes a valid selection.
  ghost predicate SomethingValid(rules: Rules, releases: seq<Release>, direct: seq<RangeCandidate>)
  {
    || (exists c :: c in direct && ValidSelection(rules, Range(c.provider, c.objectID, c.title, c.size, c.indexer, c.validator)))
    || (exists r :: r in Probe(releases) && ValidSelection(rules, Torrent(r.provider, r.infoHash, r.title, r.size, r.indexer, r.seeders)))
  }

  // The plan is empty only when nothing can be tried, whatever the cache knows.
  lemma PlanEmptyIff(rules: Rules, releases: seq<Release>, cached: seq<Release>, direct: seq<RangeCandidate>)
    ensures AsPlan(Selections(PlanParts(rules, releases, cached, direct))) == [] <==> !SomethingValid(rules, releases, direct)
  {
    hide ValidSelection, Probe, Filter, KnownCached;
    var p := PlanParts(rules, releases, cached, direct);
    SelectionsLength(p);
    AsPlanLength(Selections(p));
    DirectHasPlace(rules, releases, cached, direct);
    var known := KnownCached(Probe(releases), cached);
    var hits, misses := Filter(Probe(releases), Within(known)), Filter(Probe(releases), Outside(known));
    EmptyIff(rules, hits);
    EmptyIff(rules, misses);
    assert forall r | r in Probe(releases) :: Within(known)(r) || Outside(known)(r);
    assert forall r | r in Probe(releases) :: r in hits || r in misses;
  }

  lemma EmptyIff(rules: Rules, releases: seq<Release>)
    ensures Torrents(rules, releases) == [] <==> forall r | r in releases :: !ValidSelection(rules, TorrentOf(r))
  {
    hide ValidSelection;
    if forall r | r in releases :: !ValidSelection(rules, TorrentOf(r)) {
      assert forall r | r in Torrents(rules, releases) :: r in releases && ValidSelection(rules, TorrentOf(r));
      assert Torrents(rules, releases) != [] ==> Torrents(rules, releases)[0] in Torrents(rules, releases);
    } else {
      var r :| r in releases && ValidSelection(rules, TorrentOf(r));
      assert Selectable(rules, TorrentOf)(r) && r in Torrents(rules, releases);
    }
  }

  // A plan is stored exactly when something can be tried and no failed answer stands in the way: one of the search
  // counts unless there are direct candidates and that answer did not fail, one of the cache unless there are any.
  // The job fails for want of a release exactly when nothing can be tried and no answer that matters failed.
  lemma DecidesExactly(cfg: Config, job: Row, search: Answer<seq<Release>>, direct: Option<Answer<seq<RangeCandidate>>>, cached: Answer<seq<Release>>)
    ensures var d := Resolved(cfg, job, search, direct, cached);
            var ranges := if direct.Some? then direct.value.value else [];
            var directFailed := direct.Some? && direct.value.failure.Some?;
            var searched := search.failure.None? || (!directFailed && ranges != []);
            var checked := Probe(search.value) == [] || cached.failure.None? || ranges != [];
            && ((d.Do? && d.cmd.Plan? && d.cmd.candidates != []) <==> searched && checked && SomethingValid(cfg.rules, search.value, ranges))
            && (d == Do(Fail(NoRelease, false)) <==> searched && checked && !directFailed && !SomethingValid(cfg.rules, search.value, ranges))
            && (!searched ==> d == AfterFailure(cfg, job, search.failure.value))
            && (searched && !checked ==> d == AfterFailure(cfg, job, cached.failure.value))
            && (searched && checked && directFailed && !SomethingValid(cfg.rules, search.value, ranges) ==> d == AfterFailure(cfg, job, direct.value.failure.value))
  {
    hide Probe, PlanParts, Selections, AsPlan, SomethingValid;
    var hits := if Probe(search.value) == [] || cached.failure.Some? then [] else cached.value;
    PlanEmptyIff(cfg.rules, search.value, hits, DirectList(direct));
  }

  // Giving up on a job, without asking for a human, is only ever that decision.
  lemma FailsExactly(cfg: Config, job: Row, phase: Phase, reply: Reply)
    requires Calling(phase)
    ensures GivingUp(Next(cfg, job, phase, reply)) <==>
            phase.Resolving? && reply.Resolution? && Resolved(cfg, job, reply.search, reply.direct, reply.cached) == Do(Fail(NoRelease, false))
  {
    hide Resolved, Offered;
    if reply.Resolution? { NeverGivesUp(cfg, job, reply.search, reply.direct, reply.cached); }
  }

  predicate GivingUp(phase: Phase)
  {
    phase.Committing? && phase.decision.Do? && phase.decision.cmd.Fail? && !phase.decision.cmd.manualReview
  }

  /******* The probe *******/

  // One of the first n releases is a torrent with the hash.
  ghost predicate Seen(releases: seq<Release>, n: nat, hash: string)
  {
    hash != "" && exists j :: 0 <= j < n <= |releases| && releases[j].torrent && releases[j].infoHash == hash
  }

  lemma NothingSeen(releases: seq<Release>, hash: string)
    ensures !Seen(releases, 0, hash)
  {
  }

  lemma SeenNext(releases: seq<Release>, n: nat, hash: string)
    requires n < |releases|
    ensures Seen(releases, n + 1, hash) <==> Seen(releases, n, hash) || (hash != "" && releases[n].torrent && releases[n].infoHash == hash)
  {
  }

  // Up to the limit, the hashes probed are the hashes seen.
  lemma {:induction false} HashesProbed(releases: seq<Release>, n: nat, hash: string)
    requires n <= |releases| && |Probe(releases[..n])| < 100
    ensures hash in Hashes(Probe(releases[..n])) <==> Seen(releases, n, hash)
  {
    hide Seen;
    if n == 0 {
      NothingSeen(releases, hash);
    } else {
      assert releases[..n][..n - 1] == releases[..n - 1];
      HashesProbed(releases, n - 1, hash);
      HashesProbed(releases, n - 1, releases[n - 1].infoHash);
      SeenNext(releases, n - 1, hash);
    }
  }

  // A release joins the probe exactly when it is a torrent whose hash no earlier torrent has, and fewer than a hundred
  // joined before it.
  lemma ProbeJoins(releases: seq<Release>, n: nat)
    requires n < |releases|
    ensures var r, before := releases[n], Probe(releases[..n]);
            Probe(releases[..n + 1]) ==
            if r.torrent && r.infoHash != "" && !Seen(releases, n, r.infoHash) && |before| < 100 then before + [r] else before
  {
    hide Seen;
    assert releases[..n + 1][..n] == releases[..n];
    if |Probe(releases[..n])| < 100 { HashesProbed(releases, n, releases[n].infoHash); }
  }
}

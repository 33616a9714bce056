/**
 Runs of the job repository under arbitrary callers: submissions, claims, and
 transitions with any claim ever issued. The only assumption is a clock that
 does not go back. The log records every transition that committed.
 */
module JobRuns {
  import opened Options
  import opened JobModel

  // The log entry of a committed transition: which claim, which job, and whether it only deferred.
  datatype Entry = Entry(claim: nat, id: string, deferral: bool)

  datatype System = System(db: Db, issued: seq<Claim>, log: seq<Entry>, clock: nat)

  datatype Event =
    | Submit(id: string, request: Request, now: nat)
    | Lease(now: nat, duration: int)
    | Commit(claim: nat, cmd: Command, now: nat)

  predicate Enabled(s: System, e: Event)
  {
    e.now >= s.clock && (e.Commit? ==> e.claim < |s.issued|)
  }

  ghost function SubmitDb(rules: Rules, db: Db, id: string, request: Request, now: nat): Db
  {
    var row := NewRow(rules, request, now);
    if Loadable(rules, id, row) && id !in db && forall j :: !ActiveFor(db, j, row.intentKey) then db[id := row] else db
  }

  ghost function LeaseStep(rules: Rules, s: System, now: nat, duration: int): System
  {
    var r := ClaimReply(rules, s.db, now, duration);
    s.(db := ClaimDb(s.db, now, duration), issued := if r.Got? then s.issued + [r.claim] else s.issued, clock := now)
  }

  ghost function CommitStep(rules: Rules, s: System, c: nat, cmd: Command, now: nat): System
    requires c < |s.issued|
  {
    var claim := s.issued[c];
    s.(db := Transact(rules, s.db, claim, cmd, now),
       log := if Commits(rules, s.db, claim, cmd, now) then s.log + [Entry(c, claim.id, cmd.Defer?)] else s.log,
       clock := now)
  }

  ghost function Step(rules: Rules, s: System, e: Event): System
    requires Enabled(s, e)
  {
    match e
    case Submit(id, request, now) => s.(db := SubmitDb(rules, s.db, id, request, now), clock := now)
    case Lease(now, duration) => LeaseStep(rules, s, now, duration)
    case Commit(c, cmd, now) => CommitStep(rules, s, c, cmd, now)
  }

  ghost function Exec(rules: Rules, s: System, events: seq<Event>): Option<System>
    decreases |events|
  {
    if events == [] then Some(s)
    else if !Enabled(s, events[0]) then None
    else Exec(rules, Step(rules, s, events[0]), events[1..])
  }

  const Empty := System(map[], [], [], 0)

  ghost predicate Reachable(rules: Rules, s: System)
  {
    exists events :: Exec(rules, Empty, events) == Some(s)
  }

  // What Submit stores is what the repository's Submit leaves behind.
  lemma SubmitStores(rules: Rules, db: Db, id: string, request: Request, now: nat, r: Submitted)
    requires SubmitDone(rules, db, id, request, now, r)
    ensures SubmitDb(rules, db, id, request, now) == if r.Accepted? then r.db else db
  {
  }

  /******* Lease fencing *******/

  // Every issued claim names a stored job; versions grow from claim to claim of a job.
  ghost predicate Versioned(s: System)
  {
    && (forall id | id in s.db :: s.db[id].leaseVersion >= 0)
    && (forall c | 0 <= c < |s.issued| ::
          && s.issued[c].id in s.db && s.issued[c].job.leaseVersion == s.issued[c].version
          && 1 <= s.issued[c].version <= s.db[s.issued[c].id].leaseVersion)
    && (forall c, d | 0 <= c < d < |s.issued| && s.issued[c].id == s.issued[d].id ::
          s.issued[c].version < s.issued[d].version)
  }

  // A claim of the current version is either unspent, and its snapshot is the row, or spent, and the lease is back.
  ghost predicate Current(s: System, c: nat)
    requires c < |s.issued|
  {
    s.issued[c].id in s.db && s.issued[c].version == s.db[s.issued[c].id].leaseVersion
  }

  ghost predicate Spent(s: System, c: nat) { exists e :: 0 <= e < |s.log| && s.log[e].claim == c }

  ghost predicate Snapshots(s: System)
  {
    forall c | 0 <= c < |s.issued| && Current(s, c) ::
      if Spent(s, c) then s.db[s.issued[c].id].leaseUntil == 0 else s.db[s.issued[c].id] == s.issued[c].job
  }

  ghost predicate Logged(s: System)
  {
    && (forall e | 0 <= e < |s.log| :: s.log[e].claim < |s.issued| && s.log[e].id == s.issued[s.log[e].claim].id)
    && (forall e, f | 0 <= e < f < |s.log| :: s.log[e].claim != s.log[f].claim)
  }

  ghost predicate OneActive(s: System)
  {
    forall i, j | i in s.db && j in s.db && Active(s.db[i]) && Active(s.db[j]) && s.db[i].intentKey == s.db[j].intentKey ::
      i == j
  }

  /******* The candidate plan *******/

  predicate Abandoned(o: Outcome) { o == Stalled || o == Missing || o == Unplayable }

  ghost predicate Entered(rules: Rules, plan: seq<Candidate>)
  {
    |plan| <= MaximumJobCandidates && forall i | 0 <= i < |plan| :: plan[i].ordinal == i && ValidSelection(rules, plan[i].selection)
  }

  // Exactly candidate k is selected, those before it were given up, those after it wait.
  ghost predicate AtCandidate(plan: seq<Candidate>, k: int)
  {
    && 0 <= k < |plan| && plan[k].outcome == Chosen
    && (forall i | 0 <= i < k :: Abandoned(plan[i].outcome))
    && (forall i | k < i < |plan| :: plan[i].outcome == Pending)
  }

  ghost predicate PlanShape(rules: Rules, row: Row)
  {
    && Entered(rules, row.plan)
    && match row.state
       case Queued => row.plan == [] && row.ordinal.None? && row.selection.None?
       case Selected => PlanAt(row)
       case Preparing => PlanAt(row)
       case Succeeded => PlanAt(row)
       case Failed => row.ordinal.None? && forall i | 0 <= i < |row.plan| :: Abandoned(row.plan[i].outcome)
       case ManualReview => (row.plan == [] && row.ordinal.None?) || PlanAt(row)
  }

  ghost predicate PlanAt(row: Row)
  {
    && row.ordinal.Some? && AtCandidate(row.plan, row.ordinal.value)
    && row.selection == Some(row.plan[row.ordinal.value].selection)
  }

  ghost predicate Planned(rules: Rules, s: System)
  {
    forall id | id in s.db :: PlanShape(rules, s.db[id])
  }

  /******* The bound on transitions *******/

  // Committed transitions of a job, deferrals aside.
  ghost function Moves(log: seq<Entry>, id: string): nat
  {
    if log == [] then 0
    else Moves(log[..|log| - 1], id) + if log[|log| - 1].id == id && !log[|log| - 1].deferral then 1 else 0
  }

  // How many more a planned job can make.
  ghost function Remaining(row: Row): int
  {
    if row.state == Selected && row.ordinal.Some? then 2 * (|row.plan| - row.ordinal.value)
    else if row.state == Preparing && row.ordinal.Some? then 2 * (|row.plan| - row.ordinal.value) - 1
    else 0
  }

  ghost predicate Bounded(s: System, id: string)
    requires id in s.db
  {
    && (s.db[id].state == Queued ==> Moves(s.log, id) == 0)
    && Moves(s.log, id) + Remaining(s.db[id]) <= 1 + 2 * |s.db[id].plan|
  }

  ghost predicate AllBounded(s: System)
  {
    && (forall id | id in s.db :: Bounded(s, id))
    && (forall e | 0 <= e < |s.log| :: s.log[e].id in s.db)
  }

  ghost predicate Inv(rules: Rules, s: System)
  {
    Versioned(s) && Snapshots(s) && Logged(s) && OneActive(s) && Planned(rules, s) && AllBounded(s)
  }
}

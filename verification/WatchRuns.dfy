/**
 Runs of the watchlist queue: syncs by an observer that may restart, policy
 changes, claims and their transitions by any caller, and frontier moves to
 any later episode by any caller. The log records every publication and every move.
 */
module WatchRuns {
  import opened Options
  import opened WatchModel
  import opened WatchRepository

  // Text rules, and the media type of each external id, which does not change.
  datatype World = World(rules: Rules, kind: Key -> MediaType)

  datatype LogEntry =
    | Published(key: Key, at: Coord, objectID: string)
    | Moved(key: Key, at: Coord, next: Coord, objectID: string)

  // spent holds the claims that have committed.
  datatype System = System(q: Queue, issued: seq<Claim>, spent: set<nat>, log: seq<LogEntry>, clock: nat, baseline: bool)

  datatype Event =
    | Sync(items: seq<Item>, now: nat)
    | Restart
    | SetPolicy(policy: Policy)
    | Lease(now: nat, duration: int)
    | Commit(claim: nat, cmd: Command, now: nat)
    | Move(key: Key, objectID: string, current: Coord, next: Coord, observedAfter: int, now: nat)

  ghost predicate Enabled(w: World, s: System, e: Event)
  {
    match e
    case Sync(items, now) =>
      now >= s.clock && forall x | x in items :: w.rules.item(x) && x.mediaType == w.kind(x.key)
    case Restart => true
    case SetPolicy(_) => true
    case Lease(now, _) => now >= s.clock
    case Commit(c, _, now) => now >= s.clock && c < |s.issued|
    case Move(_, _, _, _, _, now) => now >= s.clock
  }

  ghost function LeaseStep(w: World, s: System, now: nat, duration: int): System
  {
    var r := ClaimReply(w.rules, s.q, now, duration);
    s.(q := ClaimQueue(s.q, now, duration), issued := if r.Got? then s.issued + [r.claim] else s.issued, clock := now)
  }

  ghost function CommitStep(w: World, s: System, c: nat, cmd: Command, now: nat): System
    requires c < |s.issued|
  {
    var claim := s.issued[c];
    if !Commits(w.rules, s.q, claim, cmd, now) then s.(clock := now)
    else
      s.(q := Transact(w.rules, s.q, claim, cmd, now), spent := s.spent + {c}, clock := now,
         log := if cmd.Complete? && cmd.completion.Success?
                then s.log + [Published(claim.item.key, s.q.rows[claim.item.key].intent, cmd.completion.published)] else s.log)
  }

  ghost function MoveStep(w: World, s: System, e: Event): System
    requires e.Move?
  {
    if !Advances(w.rules, s.q, e.key, e.objectID, e.current, e.next, e.observedAfter) then s.(clock := e.now)
    else
      s.(q := Advance(w.rules, s.q, e.key, e.objectID, e.current, e.next, e.observedAfter, e.now), clock := e.now,
         log := s.log + [Moved(e.key, e.current, e.next, e.objectID)])
  }

  ghost function Step(w: World, s: System, e: Event): System
    requires Enabled(w, s, e)
  {
    match e
    case Sync(items, now) =>
      s.(q := Upsert(w.rules, s.q, ObservedAll(s.baseline, s.q.policy, items), now), clock := now, baseline := true)
    case Restart => s.(baseline := false)
    case SetPolicy(policy) => s.(q := s.q.(policy := policy))
    case Lease(now, duration) => LeaseStep(w, s, now, duration)
    case Commit(c, cmd, now) => CommitStep(w, s, c, cmd, now)
    case Move(_, _, _, _, _, _) => MoveStep(w, s, e)
  }

  ghost function Exec(w: World, s: System, events: seq<Event>): Option<System>
    decreases |events|
  {
    if events == [] then Some(s)
    else if !Enabled(w, s, events[0]) then None
    else Exec(w, Step(w, s, events[0]), events[1..])
  }

  const Empty := System(Queue(map[], Policy(false, false)), [], {}, [], 0, false)

  ghost predicate Reachable(w: World, s: System) { exists events :: Exec(w, Empty, events) == Some(s) }

  /******* The log of one item *******/

  // Where the log says an eligible show stands.
  ghost function Frontier(log: seq<LogEntry>, k: Key): Coord
  {
    if log == [] then Pilot
    else if log[|log| - 1].Moved? && log[|log| - 1].key == k then log[|log| - 1].next
    else Frontier(log[..|log| - 1], k)
  }

  ghost function Publications(log: seq<LogEntry>, k: Key): seq<(Coord, string)>
  {
    if log == [] then []
    else
      var e := log[|log| - 1];
      Publications(log[..|log| - 1], k) + if e.Published? && e.key == k then [(e.at, e.objectID)] else []
  }

  // The publications that moves used up.
  ghost function Consumed(log: seq<LogEntry>, k: Key): seq<(Coord, string)>
  {
    if log == [] then []
    else
      var e := log[|log| - 1];
      Consumed(log[..|log| - 1], k) + if e.Moved? && e.key == k then [(e.at, e.objectID)] else []
  }

  /******* The invariant *******/

  ghost predicate RowOk(w: World, log: seq<LogEntry>, k: Key, row: Row)
  {
    && row.item.key == k && row.item.mediaType == w.kind(k) && row.leaseVersion >= 0
    && (row.item.mediaType == Movie || !row.autoEligible ==> row.intent == NoEpisode)
    && (row.item.mediaType == Show && row.autoEligible ==> row.intent == Frontier(log, k))
    && (!row.autoEligible ==> row.state == Pending && row.leaseVersion == 0)
  }

  // Each publication of an item has been used by one move, except the one it now shows.
  ghost predicate Balanced(log: seq<LogEntry>, k: Key, row: Row)
  {
    Publications(log, k) == Consumed(log, k) + if row.state == Succeeded then [(row.intent, row.published)] else []
  }

  ghost predicate RowsOk(w: World, s: System)
  {
    && (forall k | k in s.q.rows :: RowOk(w, s.log, k, s.q.rows[k]) && Balanced(s.log, k, s.q.rows[k]))
    && (forall e | 0 <= e < |s.log| :: s.log[e].key in s.q.rows)
  }

  ghost predicate ClaimsOk(s: System)
  {
    && (forall c | 0 <= c < |s.issued| ::
          && s.issued[c].item.key in s.q.rows
          && 1 <= s.issued[c].version <= s.q.rows[s.issued[c].item.key].leaseVersion)
    && (forall c, d | 0 <= c < d < |s.issued| && s.issued[c].item.key == s.issued[d].item.key ::
          s.issued[c].version < s.issued[d].version)
  }

  ghost predicate Current(s: System, c: nat)
    requires c < |s.issued|
  {
    s.issued[c].item.key in s.q.rows && s.issued[c].version == s.q.rows[s.issued[c].item.key].leaseVersion
  }

  // A current claim is for the row's own intent while it may commit, and is dead once it has.
  ghost predicate Fenced(s: System)
  {
    forall c | 0 <= c < |s.issued| && Current(s, c) ::
      var row := s.q.rows[s.issued[c].item.key];
      (row.state == Acquiring ==> s.issued[c].intent == row.intent) && (c in s.spent ==> row.leaseUntil == 0)
  }

  // Every move went from where the item stood to a later episode.
  ghost predicate Forward(log: seq<LogEntry>)
  {
    forall i | 0 <= i < |log| && log[i].Moved? ::
      log[i].at == Frontier(log[..i], log[i].key) && Later(log[i].next, log[i].at)
  }

  ghost predicate SpentOk(s: System) { forall c | c in s.spent :: c < |s.issued| }

  ghost predicate Inv(w: World, s: System)
  {
    RowsOk(w, s) && ClaimsOk(s) && Fenced(s) && Forward(s.log) && SpentOk(s)
  }
}

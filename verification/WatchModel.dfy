/**
 The watchlist queue: its rows, the policy singleton, and one function per
 transaction. A row's intent is the exact movie, (0, 0), or episode it is
 waiting to acquire.
 */
module WatchModel {
  import opened Options
  import opened Sorting
  import JobModel

  datatype MediaType = Movie | Show

  datatype State = Pending | Acquiring | Succeeded | NotCached | Retryable | ManualReview

  datatype Coord = Coord(season: int, episode: int)

  datatype Key = Key(source: string, externalID: string)

  datatype Item = Item(key: Key, mediaType: MediaType, title: string, year: int)

  datatype Row = Row(
    item: Item,
    state: State,
    attempt: int,
    leaseVersion: int,
    leaseUntil: int,
    nextAttempt: int,
    published: string,
    firstObserved: int,
    lastObserved: int,
    updatedAt: int,
    jobID: string,
    autoEligible: bool,
    intent: Coord)

  datatype Policy = Policy(enabled: bool, pilot: bool)

  datatype Queue = Queue(rows: map<Key, Row>, policy: Policy)

  datatype Observation = Observation(item: Item, autoEligible: bool, intent: Coord)

  datatype Claim = Claim(item: Item, intent: Coord, version: int, attempt: int, jobID: string)

  // The checks on the text of sources, titles, years and object ids may be any predicates.
  datatype Rules = Rules(item: Item -> bool, published: string -> bool)

  const NoEpisode := Coord(0, 0)

  const Pilot := Coord(1, 1)

  predicate ValidCoord(c: Coord) { 1 <= c.season <= 99 && 1 <= c.episode <= 999 }

  predicate Later(a: Coord, b: Coord) { a.season > b.season || (a.season == b.season && a.episode > b.episode) }

  // NewWatchlistObservation
  predicate ValidObservation(rules: Rules, o: Observation)
  {
    && rules.item(o.item)
    && (o.item.mediaType == Movie || !o.autoEligible ==> o.intent == NoEpisode)
    && (o.item.mediaType == Show && o.autoEligible ==> ValidCoord(o.intent))
  }

  /******* Observations *******/

  // A known item is refreshed; its intent, eligibility and progress stay as first recorded.
  function Observe(rows: map<Key, Row>, o: Observation, now: int): map<Key, Row>
  {
    var key := o.item.key;
    if key in rows then rows[key := rows[key].(item := o.item, lastObserved := now, updatedAt := now)]
    else rows[key := Row(o.item, Pending, 0, 0, 0, 0, "", now, now, now, "", o.autoEligible, o.intent)]
  }

  function ObserveAll(rows: map<Key, Row>, observations: seq<Observation>, now: int): map<Key, Row>
  {
    if observations == [] then rows
    else Observe(ObserveAll(rows, observations[..|observations| - 1], now), observations[|observations| - 1], now)
  }

  function Upsert(rules: Rules, q: Queue, observations: seq<Observation>, now: int): Queue
  {
    if forall o | o in observations :: ValidObservation(rules, o) then q.(rows := ObserveAll(q.rows, observations, now)) else q
  }

  /******* Claims *******/

  predicate Claimable(q: Queue, row: Row, now: int)
  {
    && q.policy.enabled && row.autoEligible && (row.item.mediaType == Movie || q.policy.pilot)
    && row.nextAttempt <= now
    && (row.state == Pending || row.state == NotCached || row.state == Retryable ||
        (row.state == Acquiring && row.leaseUntil <= now))
  }

  function Priority(row: Row): int { if row.state == Acquiring then 0 else 1 }

  function Due(row: Row): int { if row.state == Acquiring then row.leaseUntil else row.nextAttempt }

  predicate KeyLess(a: Key, b: Key)
  {
    StringLess(a.source, b.source) || (a.source == b.source && StringLess(a.externalID, b.externalID))
  }

  // The claim order; keys break all ties.
  predicate Ahead(a: Key, x: Row, b: Key, y: Row)
  {
    if Priority(x) != Priority(y) then Priority(x) < Priority(y)
    else if Due(x) != Due(y) then Due(x) < Due(y)
    else if x.firstObserved != y.firstObserved then x.firstObserved < y.firstObserved
    else KeyLess(a, b)
  }

  ghost predicate FirstInLine(q: Queue, now: int, k: Key)
  {
    && k in q.rows && Claimable(q, q.rows[k], now)
    && forall j | j in q.rows && Claimable(q, q.rows[j], now) && j != k :: Ahead(k, q.rows[k], j, q.rows[j])
  }

  ghost predicate SomeoneInLine(q: Queue, now: int) { exists k :: FirstInLine(q, now, k) }

  ghost function Front(q: Queue, now: int): (k: Key)
    requires SomeoneInLine(q, now)
    ensures k in q.rows && FirstInLine(q, now, k)
  {
    var k :| FirstInLine(q, now, k);
    k
  }

  function Leased(row: Row, now: int, duration: int): Row
  {
    row.(state := Acquiring, attempt := row.attempt + 1, leaseVersion := row.leaseVersion + 1,
         leaseUntil := now + duration, updatedAt := now)
  }

  // scanClaim
  function ClaimOf(rules: Rules, row: Row): Option<Claim>
  {
    if ValidObservation(rules, Observation(row.item, true, row.intent)) && row.leaseVersion >= 1 && row.attempt >= 1 &&
       (row.jobID != "" ==> JobModel.ValidID(row.jobID))
    then Some(Claim(row.item, row.intent, row.leaseVersion, row.attempt, row.jobID))
    else None
  }

  datatype Claimed = Nothing | Got(claim: Claim) | Unloadable | BadDuration

  ghost function ClaimQueue(q: Queue, now: int, duration: int): Queue
  {
    if duration > 0 && SomeoneInLine(q, now) then
      var k := Front(q, now);
      q.(rows := q.rows[k := Leased(q.rows[k], now, duration)])
    else q
  }

  ghost function ClaimReply(rules: Rules, q: Queue, now: int, duration: int): Claimed
  {
    if duration <= 0 then BadDuration
    else if !SomeoneInLine(q, now) then Nothing
    else match ClaimOf(rules, Leased(q.rows[Front(q, now)], now, duration))
         case Some(claim) => Got(claim)
         case None => Unloadable
  }

  /******* Transitions under a claim *******/

  datatype Completion = Success(published: string) | Deferred(state: State, nextAttempt: int) | Review

  datatype Command =
    | Attach(jobID: string, nextAttempt: int)
    | DeferJob(nextAttempt: int)
    | Complete(completion: Completion)

  predicate ValidClaim(rules: Rules, claim: Claim)
  {
    ValidObservation(rules, Observation(claim.item, true, claim.intent)) && claim.version >= 1 && claim.attempt >= 1
  }

  predicate Accepts(rules: Rules, claim: Claim, cmd: Command)
  {
    && ValidClaim(rules, claim)
    && match cmd
       case Attach(jobID, _) => JobModel.ValidID(jobID)
       case DeferJob(_) => JobModel.ValidID(claim.jobID)
       case Complete(Success(published)) => published != "" && rules.published(published)
       case Complete(Deferred(state, _)) => state == NotCached || state == Retryable
       case Complete(Review) => true
  }

  predicate Holding(q: Queue, claim: Claim, now: int)
  {
    && claim.item.key in q.rows
    && var row := q.rows[claim.item.key];
       row.state == Acquiring && row.leaseVersion == claim.version && row.leaseUntil > now
  }

  function Written(row: Row, claim: Claim, cmd: Command): Row
  {
    match cmd
    case Attach(jobID, nextAttempt) => row.(nextAttempt := nextAttempt, jobID := jobID)
    case DeferJob(nextAttempt) => row.(nextAttempt := nextAttempt, jobID := claim.jobID)
    case Complete(Success(published)) => row.(state := Succeeded, nextAttempt := 0, published := published, jobID := "")
    case Complete(Deferred(state, nextAttempt)) => row.(state := state, nextAttempt := nextAttempt, published := "", jobID := "")
    case Complete(Review) => row.(state := ManualReview, nextAttempt := 0, published := "", jobID := "")
  }

  predicate Commits(rules: Rules, q: Queue, claim: Claim, cmd: Command, now: int)
  {
    Accepts(rules, claim, cmd) && Holding(q, claim, now)
  }

  function Transact(rules: Rules, q: Queue, claim: Claim, cmd: Command, now: int): Queue
  {
    if !Commits(rules, q, claim, cmd, now) then q
    else
      var key := claim.item.key;
      q.(rows := q.rows[key := Written(q.rows[key], claim, cmd).(leaseUntil := 0, updatedAt := now)])
  }

  /******* The episode frontier *******/

  // One exact published episode, observed recently enough, under a policy that follows shows.
  predicate AtFrontier(q: Queue, key: Key, published: string, current: Coord, observedAfter: int)
  {
    && key in q.rows && q.policy.enabled && q.policy.pilot
    && var row := q.rows[key];
       && row.item.mediaType == Show && row.state == Succeeded && row.autoEligible
       && row.published == published && row.intent == current && row.lastObserved >= observedAfter
  }

  predicate ValidFrontier(rules: Rules, key: Key, published: string, current: Coord)
  {
    rules.item(Item(key, Show, "Episode frontier", 2026)) && published != "" && rules.published(published) && ValidCoord(current)
  }

  predicate Advances(rules: Rules, q: Queue, key: Key, published: string, current: Coord, next: Coord, observedAfter: int)
  {
    && ValidFrontier(rules, key, published, current) && ValidCoord(next) && Later(next, current)
    && AtFrontier(q, key, published, current, observedAfter)
  }

  function Advance(rules: Rules, q: Queue, key: Key, published: string, current: Coord, next: Coord, observedAfter: int, now: int): Queue
  {
    if !Advances(rules, q, key, published, current, next, observedAfter) then q
    else q.(rows := q.rows[key := q.rows[key].(state := Pending, attempt := 0, leaseUntil := 0, nextAttempt := 0,
                                               published := "", jobID := "", intent := next, updatedAt := now)])
  }

  /******* Order of claims *******/

  lemma KeyLessTotal(a: Key, b: Key)
    requires a != b
    ensures KeyLess(a, b) != KeyLess(b, a)
  {
    StringAsymmetric(a.source, b.source);
    StringAsymmetric(a.externalID, b.externalID);
  }

  lemma AheadTotal(a: Key, x: Row, b: Key, y: Row)
    requires a != b
    ensures Ahead(a, x, b, y) != Ahead(b, y, a, x)
  {
    KeyLessTotal(a, b);
  }

  lemma StringLessTransitive(a: string, b: string, c: string)
    requires StringLess(a, b) && StringLess(b, c)
    ensures StringLess(a, c)
  {
    StringAsymmetric(a, b);
    StringAsymmetric(b, c);
    StringAsymmetric(a, c);
    StringTransitive(c, b, a);
    StringTransitive(b, a, c);
    StringTransitive(a, c, b);
  }

  lemma AheadTransitive(a: Key, x: Row, b: Key, y: Row, c: Key, z: Row)
    requires Ahead(a, x, b, y) && Ahead(b, y, c, z)
    ensures Ahead(a, x, c, z)
  {
    if KeyLess(a, b) && KeyLess(b, c) {
      if StringLess(a.source, b.source) && StringLess(b.source, c.source) { StringLessTransitive(a.source, b.source, c.source); }
      if StringLess(a.externalID, b.externalID) && StringLess(b.externalID, c.externalID) {
        StringLessTransitive(a.externalID, b.externalID, c.externalID);
      }
    }
  }

  // Claim order is total, so the next claim does not depend on scan order.
  lemma FirstUnique(q: Queue, now: int, i: Key, j: Key)
    requires FirstInLine(q, now, i) && FirstInLine(q, now, j)
    ensures i == j
  {
    if i != j { AheadTotal(i, q.rows[i], j, q.rows[j]); }
  }
}

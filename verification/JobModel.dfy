/**
 Durable acquisition jobs: the rows the repository stores, the snapshot
 validator every load goes through, and one function per SQL transaction.
 A transition is checked against the claim first, then applied by one guarded
 update that names the claim's lease version, its expiry and the source state.
 */
module JobModel {
  import opened Options
  import opened Sorting

  const MaximumJobCandidates := 5

  datatype State = Queued | Selected | Preparing | Succeeded | Failed | ManualReview

  datatype ErrorCode =
    | NoCode | ProviderUnavailable | NotAuthorized | NoRelease | NoPlayableMedia
    | MaterializationFailed | PreparationStalled | AmbiguousMutation

  datatype Outcome = Pending | Chosen | Stalled | Missing | Unplayable

  datatype Request = Request(mediaType: string, title: string, year: int, season: int, episode: int)

  datatype Selection =
    | Torrent(provider: string, infoHash: string, title: string, size: int, indexer: string, seeders: Option<int>)
    | Range(provider: string, objectID: string, title: string, size: int, indexer: string, validator: string)

  datatype CreatedObject = CreatedObject(provider: string, objectID: string)

  datatype Candidate = Candidate(selection: Selection, ordinal: int, outcome: Outcome)

  // A job row, with its candidate rows in ordinal order. Absent columns are None.
  datatype Row = Row(
    request: Request,
    intentKey: string,
    state: State,
    selection: Option<Selection>,
    created: Option<CreatedObject>,
    ordinal: Option<int>,
    createdByJob: bool,
    published: string,
    error: ErrorCode,
    progress: int,
    attempt: int,
    leaseVersion: int,
    leaseUntil: int,
    nextAttempt: int,
    createdAt: int,
    updatedAt: int,
    plan: seq<Candidate>)

  type Db = map<string, Row>

  // job is the row as the claim found it.
  datatype Claim = Claim(id: string, job: Row, version: int)

  // The checks on the text of names, titles and identifiers may be any predicates.
  datatype Rules = Rules(
    request: Request -> bool,
    selection: Selection -> bool,
    obj: CreatedObject -> bool,
    published: string -> bool,
    intentKey: Request -> string)

  /******* Validation *******/

  function Identity(s: Selection): string { if s.Range? then s.objectID else s.infoHash }

  predicate ValidSelection(rules: Rules, s: Selection) { Identity(s) != "" && s.size > 0 && rules.selection(s) }

  predicate ValidID(id: string)
  {
    |id| == 32 && forall i | 0 <= i < |id| :: '0' <= id[i] <= '9' || 'a' <= id[i] <= 'f'
  }

  predicate ActiveState(s: State) { s == Queued || s == Selected || s == Preparing }

  predicate Active(row: Row) { ActiveState(row.state) }

  predicate ValidStage(row: Row)
  {
    match row.state
    case Queued => row.selection.None? && row.created.None? && row.published == "" && row.progress == 0
    case Selected => row.selection.Some? && row.created.None? && row.published == "" && row.progress == 0
    case Preparing => row.selection.Some? && row.created.Some? && row.published == "" && row.progress < 100
    case Succeeded =>
      row.selection.Some? && row.created.Some? && row.published != "" && row.progress == 100 && row.error == NoCode
    case Failed => row.published == "" && row.error != NoCode
    case ManualReview => row.published == "" && row.error == AmbiguousMutation
  }

  predicate ValidOrdinal(row: Row)
  {
    row.ordinal.Some? ==>
      0 <= row.ordinal.value < MaximumJobCandidates && row.selection.Some? && row.state != Queued && row.state != Failed
  }

  predicate ValidOwner(row: Row)
  {
    row.createdByJob ==>
      row.created.Some? && (row.state == Preparing || row.state == Succeeded || row.state == ManualReview)
  }

  // NewAcquisitionJobSnapshot accepts the row.
  predicate Loadable(rules: Rules, id: string, row: Row)
  {
    && ValidID(id) && rules.request(row.request)
    && row.attempt >= 0 && 0 <= row.progress <= 100 && row.createdAt <= row.updatedAt
    && (row.selection.Some? ==> ValidSelection(rules, row.selection.value))
    && (row.created.Some? ==> rules.obj(row.created.value))
    && (row.published != "" ==> rules.published(row.published))
    && ValidStage(row) && ValidOrdinal(row) && ValidOwner(row)
  }

  datatype SelectionKey = SelectionKey(isRange: bool, provider: string, identity: string)

  function KeyOf(s: Selection): SelectionKey { SelectionKey(s.Range?, s.provider, Identity(s)) }

  predicate ValidCandidate(rules: Rules, c: Candidate, i: int)
  {
    ValidSelection(rules, c.selection) && c.ordinal == i && c.outcome == if i == 0 then Chosen else Pending
  }

  predicate ValidPlan(rules: Rules, plan: seq<Candidate>)
  {
    && 0 < |plan| <= MaximumJobCandidates
    && (forall i | 0 <= i < |plan| :: ValidCandidate(rules, plan[i], i))
    && (forall i, j | 0 <= i < j < |plan| :: KeyOf(plan[i].selection) != KeyOf(plan[j].selection))
  }

  /******* Submit and Claim *******/

  function NewRow(rules: Rules, request: Request, now: int): Row
  {
    Row(request, rules.intentKey(request), Queued, None, None, None, false, "", NoCode, 0, 0, 0, 0, 0, now, now, [])
  }

  ghost predicate ActiveFor(db: Db, id: string, intentKey: string)
  {
    id in db && Active(db[id]) && db[id].intentKey == intentKey
  }

  // created: inserted now. !created: the active job for the same intent.
  datatype Submitted = Accepted(db: Db, id: string, created: bool) | Rejected

  // Some active job with the request's intent is returned; else a new row, unless the id is taken.
  ghost predicate SubmitDone(rules: Rules, db: Db, id: string, request: Request, now: int, r: Submitted)
  {
    var intent := rules.intentKey(request);
    if !Loadable(rules, id, NewRow(rules, request, now)) then r == Rejected
    else if exists j :: ActiveFor(db, j, intent) then
      exists j :: ActiveFor(db, j, intent) && r == if Loadable(rules, j, db[j]) then Accepted(db, j, false) else Rejected
    else if id in db then r == Rejected
    else r == Accepted(db[id := NewRow(rules, request, now)], id, true)
  }

  predicate Claimable(row: Row, now: int) { Active(row) && row.nextAttempt <= now && row.leaseUntil <= now }

  // The queue order: due time, then age, then id.
  predicate Ahead(i: string, x: Row, j: string, y: Row)
  {
    || x.nextAttempt < y.nextAttempt
    || (x.nextAttempt == y.nextAttempt && x.createdAt < y.createdAt)
    || (x.nextAttempt == y.nextAttempt && x.createdAt == y.createdAt && StringLess(i, j))
  }

  ghost predicate FirstInLine(db: Db, now: int, id: string)
  {
    && id in db && Claimable(db[id], now)
    && forall j | j in db && Claimable(db[j], now) && j != id :: Ahead(id, db[id], j, db[j])
  }

  function Leased(row: Row, now: int, duration: int): Row
  {
    row.(attempt := row.attempt + 1, leaseVersion := row.leaseVersion + 1, leaseUntil := now + duration, updatedAt := now)
  }

  // Nothing to claim, a claim, or a leased row that does not load.
  datatype Claimed = Nothing | Got(claim: Claim) | Unloadable | BadDuration

  ghost predicate SomeoneInLine(db: Db, now: int) { exists id :: FirstInLine(db, now, id) }

  ghost function Front(db: Db, now: int): (id: string)
    requires SomeoneInLine(db, now)
    ensures id in db && FirstInLine(db, now, id)
  {
    var id :| FirstInLine(db, now, id);
    id
  }

  ghost function ClaimDb(db: Db, now: int, duration: int): Db
  {
    if duration > 0 && SomeoneInLine(db, now) then
      var id := Front(db, now);
      db[id := Leased(db[id], now, duration)]
    else db
  }

  // The lease is taken before the row is validated, so an unloadable row is leased too.
  ghost function ClaimReply(rules: Rules, db: Db, now: int, duration: int): Claimed
  {
    if duration <= 0 then BadDuration
    else if !SomeoneInLine(db, now) then Nothing
    else
      var id := Front(db, now);
      var row := Leased(db[id], now, duration);
      if Loadable(rules, id, row) && row.leaseVersion >= 1 then Got(Claim(id, row, row.leaseVersion)) else Unloadable
  }

  /******* Transitions under a claim *******/

  datatype Command =
    | Plan(candidates: seq<Candidate>)
    | Attach(created: CreatedObject, owned: bool)
    | Advance(outcome: Outcome, code: ErrorCode)
    | Defer(nextAttempt: int, code: ErrorCode, progress: int)
    | Succeed(published: string)
    | Fail(code: ErrorCode, manualReview: bool)

  function FailedState(manualReview: bool): State { if manualReview then ManualReview else Failed }

  // The row an exhausted plan would leave behind, as validateTerminalCode builds it.
  function Exhausted(job: Row, code: ErrorCode, now: int): Row
  {
    job.(state := Failed, selection := None, created := None, ordinal := None, createdByJob := false,
         published := "", error := code, progress := 0, updatedAt := now)
  }

  // What each transaction checks before it opens the database.
  predicate Accepts(rules: Rules, claim: Claim, cmd: Command, now: int)
  {
    var job := claim.job;
    && claim.id != "" && claim.version >= 1
    && match cmd
       case Plan(candidates) => ValidPlan(rules, candidates)
       case Attach(created, _) => rules.obj(created)
       case Advance(outcome, code) =>
         && (job.state == Selected || job.state == Preparing)
         && job.ordinal.Some? && 0 <= job.ordinal.value < MaximumJobCandidates
         && job.selection.Some? && ValidSelection(rules, job.selection.value)
         && (outcome == Stalled || outcome == Missing || outcome == Unplayable)
         && (job.state == Selected ==> outcome == Missing)
         && Loadable(rules, claim.id, Exhausted(job, code, now))
       case Defer(nextAttempt, code, progress) =>
         && nextAttempt > now && 0 <= progress < 100
         && (code == NoCode || code == ProviderUnavailable || code == NotAuthorized)
       case Succeed(published) =>
         Loadable(rules, claim.id, job.(state := Succeeded, published := published, error := NoCode, progress := 100, updatedAt := now))
       case Fail(code, manualReview) =>
         Loadable(rules, claim.id, job.(state := FailedState(manualReview), published := "", error := code, updatedAt := now))
  }

  // WHERE id = ? AND lease_version = ? AND lease_until_unix_ms > ?
  predicate Holding(db: Db, claim: Claim, now: int)
  {
    claim.id in db && db[claim.id].leaseVersion == claim.version && db[claim.id].leaseUntil > now
  }

  // The least ordinal from i on whose outcome is pending.
  function FirstPending(plan: seq<Candidate>, i: nat): (n: nat)
    requires i <= |plan|
    ensures i <= n <= |plan| && (n < |plan| ==> plan[n].outcome == Pending)
    ensures forall j | i <= j < n :: plan[j].outcome != Pending
    decreases |plan| - i
  {
    if i == |plan| || plan[i].outcome == Pending then i else FirstPending(plan, i + 1)
  }

  function Marked(plan: seq<Candidate>, i: int, outcome: Outcome): seq<Candidate>
    requires 0 <= i < |plan|
  {
    plan[i := plan[i].(outcome := outcome)]
  }

  predicate HasChosen(row: Row, i: int) { 0 <= i < |row.plan| && row.plan[i].outcome == Chosen }

  // The state clause of each update, and for Advance the candidate rows it needs.
  predicate Admits(rules: Rules, row: Row, claim: Claim, cmd: Command)
  {
    match cmd
    case Plan(_) => row.state == Queued && row.plan == []
    case Attach(_, _) => row.state == Selected
    case Advance(outcome, _) =>
      && row.state == claim.job.state && claim.job.ordinal.Some? && HasChosen(row, claim.job.ordinal.value)
      && (var marked := Marked(row.plan, claim.job.ordinal.value, outcome);
          var n := FirstPending(marked, 0);
          n < |marked| ==> ValidSelection(rules, marked[n].selection) && marked[n].ordinal < MaximumJobCandidates)
    case Defer(_, _, _) => Active(row)
    case Succeed(_) => row.state == Preparing
    case Fail(_, _) => Active(row)
  }

  function Choose(row: Row, plan: seq<Candidate>, n: nat): Row
    requires n < |plan|
  {
    row.(state := Selected, selection := Some(plan[n].selection), ordinal := Some(n), created := None,
         createdByJob := false, error := NoCode, progress := 0, nextAttempt := 0, plan := plan)
  }

  function Written(rules: Rules, row: Row, claim: Claim, cmd: Command): Row
    requires Admits(rules, row, claim, cmd) && (cmd.Plan? ==> cmd.candidates != [])
  {
    match cmd
    case Plan(candidates) => Choose(row, candidates, 0)
    case Attach(created, owned) =>
      row.(state := Preparing, created := Some(created), createdByJob := owned, error := NoCode, progress := 0, nextAttempt := 0)
    case Advance(outcome, code) =>
      var marked := Marked(row.plan, claim.job.ordinal.value, outcome);
      var n := FirstPending(marked, 0);
      if n < |marked| then Choose(row, Marked(marked, n, Chosen), n)
      else
        row.(state := Failed, selection := None, ordinal := None, created := None, createdByJob := false,
             error := code, progress := 0, nextAttempt := 0, plan := marked)
    case Defer(nextAttempt, code, progress) => row.(nextAttempt := nextAttempt, error := code, progress := progress)
    case Succeed(published) =>
      row.(state := Succeeded, published := published, error := NoCode, progress := 100, nextAttempt := 0)
    case Fail(code, manualReview) => row.(state := FailedState(manualReview), error := code, nextAttempt := 0)
  }

  // Every transition gives the lease back.
  function Settled(row: Row, now: int): Row { row.(leaseUntil := 0, updatedAt := now) }

  predicate Commits(rules: Rules, db: Db, claim: Claim, cmd: Command, now: int)
  {
    Accepts(rules, claim, cmd, now) && Holding(db, claim, now) && Admits(rules, db[claim.id], claim, cmd)
  }

  function Transact(rules: Rules, db: Db, claim: Claim, cmd: Command, now: int): Db
  {
    if Commits(rules, db, claim, cmd, now)
    then db[claim.id := Settled(Written(rules, db[claim.id], claim, cmd), now)]
    else db
  }

  lemma PlanNonempty(rules: Rules, claim: Claim, cmd: Command, now: int)
    requires Accepts(rules, claim, cmd, now)
    ensures cmd.Plan? ==> cmd.candidates != []
  {
  }

  // Queue order is strict, so the next job to lease does not depend on scan order.
  lemma FirstUnique(db: Db, now: int, i: string, j: string)
    requires FirstInLine(db, now, i) && FirstInLine(db, now, j)
    ensures i == j
  {
    StringAsymmetric(i, j);
  }
}

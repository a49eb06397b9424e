/** What the SQLite replay control plane (`api_runtime.py`) does to its rows, written once as
    functions. A job's row, timeline, mirrored decision and delivery are joined into one
    `Entry`; the owner-decision ledger lives in another database and is kept apart. */
module ControlPlane {
  import opened Wrappers
  import opened Text
  import opened Decisions

  type Time = real

  const MAX_RETRY_DELAY: Time := 3600.0

  datatype Config = Config(lease: Time, retryBase: Time, maxReplay: nat, maxDelivery: nat) {
    predicate Valid() {
      lease > 0.0 && retryBase > 0.0 && maxReplay > 0 && maxDelivery > 0
    }
  }

  datatype Status = Queued | Running | PausedApproval | Completed

  /** `InvestigationStatus` as an owner sees it. */
  datatype Shown = Stored(status: Status) | FailedSafe

  datatype View = View(id: string, shown: Shown)

  datatype Job = Job(
    position: nat,
    owner: string,
    family: string,
    key: string,
    status: Status,
    checkpoint: Option<string>,
    incident: Option<string>,
    artifact: Option<string>,
    content: Option<string>,
    digest: Option<Digest>,
    attempts: nat,
    availableAt: Time,
    failure: Option<string>,
    token: Option<string>,
    expiresAt: Option<Time>)

  datatype DecisionRow = DecisionRow(checkpoint: string, decision: OwnerDecision)

  datatype DeliveryStatus = Pending | Sending | Sent

  datatype Delivery = Delivery(
    destination: string,
    status: DeliveryStatus,
    token: Option<string>,
    expiresAt: Option<Time>,
    attempts: nat,
    availableAt: Time,
    failure: Option<string>)

  datatype Event =
    | InvestigationQueued
    | InvestigationStarted
    | ScenarioReserved(incident: string)
    | LeaseExpired(attempt: nat, retryAt: Time)
    | RetryScheduled(attempt: nat, retryAt: Time)
    | InvestigationFailed(attempt: nat)
    | DecisionRequested(checkpoint: string)
    | DecisionRecorded(checkpoint: string, verdict: Verdict)
    | InvestigationRequeued
    | ReportFinalized
    | DeliveryLeaseExpired(attempt: nat, retryAt: Time)
    | DeliveryRetryScheduled(attempt: nat, retryAt: Time)
    | DeliveryFailed(attempt: nat)
    | DeliveryRequeued
    | ReportDelivered

  datatype EventRow = EventRow(ordinal: nat, event: Event)

  datatype Entry = Entry(job: Job, timeline: seq<EventRow>, mirror: Option<DecisionRow>, delivery: Option<Delivery>)

  type Entries = map<string, Entry>
  type Ledger = map<string, DecisionRow>

  datatype Db = Db(entries: Entries, ledger: Ledger)

  datatype WorkerClaim = WorkerClaim(
    id: string, owner: string, family: string,
    checkpoint: Option<string>, incident: Option<string>, decision: Option<OwnerDecision>, token: string)

  datatype DeliveryClaim = DeliveryClaim(
    id: string, artifact: Option<string>, content: Option<string>, digest: Option<Digest>,
    destination: string, token: string)

  // ---------------------------------------------------------------- one job's rows

  /** The columns one operation writes, and the event it appends with them. */
  datatype Change = Change(job: Job, mirror: Option<DecisionRow>, delivery: Option<Delivery>, event: Option<Event>)

  function Keep(e: Entry): Change {
    Change(e.job, e.mirror, e.delivery, None)
  }

  /** `COALESCE(MAX(ordinal) + 1, 0)` */
  function NextOrdinal(rows: seq<EventRow>): nat {
    if rows == [] then 0
    else
      var before := NextOrdinal(rows[..|rows| - 1]);
      var last := rows[|rows| - 1].ordinal + 1;
      if last > before then last else before
  }

  function Append(rows: seq<EventRow>, event: Option<Event>): seq<EventRow> {
    if event.None? then rows else rows + [EventRow(NextOrdinal(rows), event.value)]
  }

  function Commit(e: Entry, c: Change): Entry {
    Entry(c.job, Append(e.timeline, c.event), c.mirror, c.delivery)
  }

  function Pow2(n: nat): real {
    if n == 0 then 1.0 else 2.0 * Pow2(n - 1)
  }

  function RetryDelay(cfg: Config, attempt: nat): Time
    requires attempt > 0
  {
    var delay := cfg.retryBase * Pow2(attempt - 1);
    if delay < MAX_RETRY_DELAY then delay else MAX_RETRY_DELAY
  }

  function Show(job: Job): Shown {
    if job.failure.Some? then FailedSafe else Stored(job.status)
  }

  /** The claim is held by `token`, whether or not its lease has run out. */
  predicate Holds(job: Job, token: string) {
    job.status == Running && job.token == Some(token)
  }

  predicate Current(job: Job, token: string, now: Time) {
    Holds(job, token) && job.expiresAt.Some? && job.expiresAt.value > now
  }

  predicate Expired(job: Job, now: Time) {
    job.status == Running && job.expiresAt.Some? && job.expiresAt.value <= now
  }

  function Unclaimed(job: Job, status: Status): Job {
    job.(status := status, token := None, expiresAt := None)
  }

  /** The reason stored with a failure. `error`: the name of the last error's class. */
  function RetryLimit(error: string): string {
    "retry_limit:" + error
  }

  /** One more failed attempt: back to the queue with a delay, or failed for good. */
  function Attempted(cfg: Config, job: Job, now: Time, error: string): Job {
    var attempt := job.attempts + 1;
    var queued := Unclaimed(job, Queued).(attempts := attempt);
    if attempt >= cfg.maxReplay then queued.(failure := Some(RetryLimit(error)))
    else queued.(availableAt := now + RetryDelay(cfg, attempt))
  }

  function ReclaimChange(cfg: Config, e: Entry, now: Time): Change {
    if !Expired(e.job, now) then Keep(e)
    else
      var job := Attempted(cfg, e.job, now, "lease_expired");
      Keep(e).(job := job, event := Some(
        if job.attempts >= cfg.maxReplay then InvestigationFailed(job.attempts)
        else LeaseExpired(job.attempts, job.availableAt)))
  }

  function RetryChange(cfg: Config, e: Entry, token: string, now: Time, error: string): Reply<(Change, bool)> {
    if !Holds(e.job, token) then Conflict
    else
      var job := Attempted(cfg, e.job, now, error);
      var retryable := job.attempts < cfg.maxReplay;
      Ok((Keep(e).(job := job, event := Some(
        if retryable then RetryScheduled(job.attempts, job.availableAt) else InvestigationFailed(job.attempts))),
        retryable))
  }

  /** Finish a decision whose ledger row is durable: mirror it and queue the paused job. */
  function ReconcileChange(e: Entry, row: Option<DecisionRow>): Reply<Change> {
    if e.job.status != PausedApproval then Ok(Keep(e))
    else if e.job.checkpoint.None? || e.job.checkpoint.value == "" then Integrity
    else if row.None? then Ok(Keep(e))
    else if row.value.checkpoint != e.job.checkpoint.value then Integrity
    else if e.mirror.Some? && e.mirror != row then Integrity
    else Ok(Change(e.job.(status := Queued), row, e.delivery,
                   Some(DecisionRecorded(row.value.checkpoint, row.value.decision.verdict))))
  }

  function ClaimChange(cfg: Config, e: Entry, now: Time, token: string): Change {
    Keep(e).(job := e.job.(status := Running, token := Some(token), expiresAt := Some(now + cfg.lease)),
             event := Some(InvestigationStarted))
  }

  function RenewChange(cfg: Config, e: Entry, token: string, now: Time): Reply<Change> {
    if Current(e.job, token, now) then Ok(Keep(e).(job := e.job.(expiresAt := Some(now + cfg.lease)))) else Conflict
  }

  function IncidentOf(id: string): string {
    "scenario" + id
  }

  function ReserveChange(id: string, e: Entry, token: string, now: Time): Reply<(Change, string)> {
    if !Current(e.job, token, now) then Conflict
    else if e.job.incident.Some? then Ok((Keep(e), e.job.incident.value))
    else Ok((Keep(e).(job := e.job.(incident := Some(IncidentOf(id))), event := Some(ScenarioReserved(IncidentOf(id)))),
             IncidentOf(id)))
  }

  function PauseChange(e: Entry, checkpoint: string, token: string, now: Time): Reply<Change> {
    if !Current(e.job, token, now) then Conflict
    else Ok(Keep(e).(job := Unclaimed(e.job, PausedApproval).(checkpoint := Some(checkpoint)),
                     event := Some(DecisionRequested(checkpoint))))
  }

  function RequeueChange(e: Entry, token: string): Reply<Change> {
    if Holds(e.job, token) then
      Ok(Keep(e).(job := Unclaimed(e.job, Queued), event := Some(InvestigationRequeued)))
    else Conflict
  }

  /** `validate_report_reference` */
  predicate OwnReport(id: string, artifact: string) {
    artifact == id + "/report.md"
  }

  function FreshDelivery(owner: string): Delivery {
    Delivery(owner, Pending, None, None, 0, 0.0, None)
  }

  /** `snapshot` is what the artifact file held, None when it could not be read. */
  function FinalizeChange(id: string, e: Entry, artifact: string, token: string, now: Time, snapshot: Option<string>)
    : Reply<Change>
  {
    if e.job.status == Completed then Conflict
    else if !Current(e.job, token, now) then Conflict
    else if !OwnReport(id, artifact) || snapshot.None? then Invalid
    else if e.delivery.Some? then Integrity
    else
      var job := Unclaimed(e.job, Completed).(
        artifact := Some(artifact), content := snapshot, digest := Some(Sha256(snapshot.value)));
      Ok(Change(job, e.mirror, Some(FreshDelivery(e.job.owner)), Some(ReportFinalized)))
  }

  // ---------------------------------------------------------------- the delivery outbox

  predicate Carries(d: Delivery, token: string) {
    d.status == Sending && d.token == Some(token)
  }

  predicate CarriesNow(d: Delivery, token: string, now: Time) {
    Carries(d, token) && d.expiresAt.Some? && d.expiresAt.value > now
  }

  function Undelivered(d: Delivery): Delivery {
    d.(status := Pending, token := None, expiresAt := None)
  }

  function Undeliverable(cfg: Config, d: Delivery, now: Time, error: string): Delivery {
    var attempt := d.attempts + 1;
    if attempt >= cfg.maxDelivery then Undelivered(d).(attempts := attempt, failure := Some(RetryLimit(error)))
    else Undelivered(d).(attempts := attempt, availableAt := now + RetryDelay(cfg, attempt))
  }

  function WithDelivery(e: Entry, d: Delivery, event: Option<Event>): Change {
    Change(e.job, e.mirror, Some(d), event)
  }

  function ReclaimDeliveryChange(cfg: Config, e: Entry, now: Time): Change {
    if e.delivery.None? || e.delivery.value.status != Sending
       || e.delivery.value.expiresAt.None? || e.delivery.value.expiresAt.value > now
    then Keep(e)
    else
      var d := Undeliverable(cfg, e.delivery.value, now, "lease_expired");
      WithDelivery(e, d, Some(
        if d.attempts >= cfg.maxDelivery then DeliveryFailed(d.attempts)
        else DeliveryLeaseExpired(d.attempts, d.availableAt)))
  }

  function ClaimDeliveryChange(cfg: Config, e: Entry, now: Time, token: string): Change
    requires e.delivery.Some?
  {
    WithDelivery(e, e.delivery.value.(status := Sending, token := Some(token), expiresAt := Some(now + cfg.lease)), None)
  }

  function DeliveredChange(e: Entry, token: string, now: Time): Reply<Change> {
    if e.delivery.Some? && CarriesNow(e.delivery.value, token, now) then
      Ok(WithDelivery(e, e.delivery.value.(status := Sent, token := None, expiresAt := None), Some(ReportDelivered)))
    else Conflict
  }

  function RenewDeliveryChange(cfg: Config, e: Entry, token: string, now: Time): Reply<Change> {
    if e.delivery.Some? && CarriesNow(e.delivery.value, token, now) then
      Ok(WithDelivery(e, e.delivery.value.(expiresAt := Some(now + cfg.lease)), None))
    else Conflict
  }

  function ReleaseDeliveryChange(e: Entry, token: string): Reply<Change> {
    if e.delivery.Some? && Carries(e.delivery.value, token) then
      Ok(WithDelivery(e, Undelivered(e.delivery.value), Some(DeliveryRequeued)))
    else Conflict
  }

  function RetryDeliveryChange(cfg: Config, e: Entry, token: string, now: Time, error: string): Reply<(Change, bool)> {
    if e.delivery.None? then NotFound
    else if !Carries(e.delivery.value, token) then Conflict
    else
      var d := Undeliverable(cfg, e.delivery.value, now, error);
      var retryable := d.attempts < cfg.maxDelivery;
      Ok((WithDelivery(e, d, Some(
        if retryable then DeliveryRetryScheduled(d.attempts, d.availableAt) else DeliveryFailed(d.attempts))),
        retryable))
  }

  // ---------------------------------------------------------------- the whole database

  /** The answer of an operation with the database it commits; an error commits nothing. */
  type Outcome<T> = Reply<(Db, T)>

  function After<T>(db: Db, r: Outcome<T>): Db {
    if r.Ok? then r.value.0 else db
  }

  /** What the caller gets. */
  function Answer<T>(o: Outcome<T>): Reply<T> {
    match o
    case Ok(p) => Ok(p.1)
    case NotFound => NotFound
    case Conflict => Conflict
    case Integrity => Integrity
    case Invalid => Invalid
  }

  function Write(db: Db, id: string, c: Change): Db
    requires id in db.entries
  {
    db.(entries := db.entries[id := Commit(db.entries[id], c)])
  }

  function Written(db: Db, id: string, r: Reply<Change>): Outcome<()>
    requires id in db.entries
  {
    match r
    case Ok(c) => Ok((Write(db, id, c), ()))
    case NotFound => NotFound
    case Conflict => Conflict
    case Integrity => Integrity
    case Invalid => Invalid
  }

  function WrittenWith<T>(db: Db, id: string, r: Reply<(Change, T)>): Outcome<T>
    requires id in db.entries
  {
    match r
    case Ok(p) => Ok((Write(db, id, p.0), p.1))
    case NotFound => NotFound
    case Conflict => Conflict
    case Integrity => Integrity
    case Invalid => Invalid
  }

  predicate SameRequest(job: Job, owner: string, key: string) {
    job.owner == owner && job.key == key
  }

  function NewJob(position: nat, owner: string, family: string, key: string): Job {
    Job(position, owner, family, key, Queued, None, None, None, None, None, 0, 0.0, None, None, None)
  }

  /** SQLite hands out the next rowid; nothing is ever deleted. */
  ghost function Create(db: Db, owner: string, family: string, key: string, id: string): Outcome<View> {
    if exists prior :: prior in db.entries && SameRequest(db.entries[prior].job, owner, key) then
      var prior :| prior in db.entries && SameRequest(db.entries[prior].job, owner, key);
      Ok((db, View(prior, Show(db.entries[prior].job))))
    else
      var entry := Entry(NewJob(|db.entries| + 1, owner, family, key), Append([], Some(InvestigationQueued)), None, None);
      Ok((db.(entries := db.entries[id := entry]), View(id, Stored(Queued))))
  }

  /** `_ensure_ledger_decision`: the first decision wins. */
  function EnsureLedger(ledger: Ledger, id: string, row: DecisionRow): Reply<Ledger> {
    if id !in ledger then Ok(ledger[id := row])
    else if ledger[id].checkpoint != row.checkpoint then Integrity
    else if ledger[id].decision != row.decision then Conflict
    else Ok(ledger)
  }

  /** The ledger row is written before the control-plane transaction commits. */
  function Decide(db: Db, owner: string, id: string, d: OwnerDecision): Outcome<View> {
    if id !in db.entries || db.entries[id].job.owner != owner then NotFound
    else
      var e := db.entries[id];
      var checkpoint := if e.job.checkpoint.Some? then e.job.checkpoint.value else "";
      if e.mirror.Some? && (checkpoint == "" || e.mirror.value.checkpoint != checkpoint) then Integrity
      else if e.mirror.Some? && e.mirror.value.decision != d then Conflict
      else if e.mirror.None? && e.job.status != PausedApproval then Conflict
      else if checkpoint == "" then Integrity
      else
        var row := DecisionRow(checkpoint, d);
        match EnsureLedger(db.ledger, id, row)
        case Ok(ledger) =>
          var told := db.(ledger := ledger);
          if e.mirror.Some? then Ok((told, View(id, Show(e.job))))
          else
            Ok((Write(told, id, Change(e.job.(status := Queued), Some(row), e.delivery,
                                       Some(DecisionRecorded(checkpoint, d.verdict)))),
                View(id, Stored(Queued))))
        case NotFound => NotFound
        case Conflict => Conflict
        case Integrity => Integrity
        case Invalid => Invalid
  }

  /** The process dies after the ledger commit and before the control-plane commit. */
  function DecideThenCrash(db: Db, owner: string, id: string, d: OwnerDecision): Db {
    db.(ledger := After(db, Decide(db, owner, id, d)).ledger)
  }

  /** `causalops approve`/`reject` insert straight into the ledger. */
  function CliRecord(db: Db, id: string, row: DecisionRow): Outcome<()> {
    if id in db.ledger then Conflict else Ok((db.(ledger := db.ledger[id := row]), ()))
  }

  function Lookup(ledger: Ledger, id: string): Option<DecisionRow> {
    if id in ledger then Some(ledger[id]) else None
  }

  function ReclaimAll(cfg: Config, entries: Entries, now: Time): Entries {
    map id | id in entries :: Commit(entries[id], ReclaimChange(cfg, entries[id], now))
  }

  predicate Reconcilable(db: Db) {
    forall id | id in db.entries :: ReconcileChange(db.entries[id], Lookup(db.ledger, id)).Ok?
  }

  function ReconcileAll(db: Db): Entries
    requires Reconcilable(db)
  {
    map id | id in db.entries :: Commit(db.entries[id], ReconcileChange(db.entries[id], Lookup(db.ledger, id)).value)
  }

  predicate AnyRunning(entries: Entries) {
    exists id :: id in entries && entries[id].job.status == Running
  }

  predicate Waiting(job: Job) {
    job.status == Queued && job.failure.None?
  }

  /** A job that holds the lab's one scenario and is waiting out its backoff. */
  predicate Deferred(entries: Entries, now: Time) {
    exists id :: id in entries && Waiting(entries[id].job)
      && entries[id].job.incident.Some? && entries[id].job.availableAt > now
  }

  predicate Claimable(job: Job, now: Time) {
    Waiting(job) && job.availableAt <= now
  }

  /** ORDER BY (incident first), available_at, rowid */
  predicate NoLater(a: Job, b: Job) {
    if a.incident.Some? != b.incident.Some? then a.incident.Some?
    else if a.availableAt != b.availableAt then a.availableAt < b.availableAt
    else a.position <= b.position
  }

  ghost predicate IsFirst(entries: Entries, now: Time, id: string) {
    && id in entries && Claimable(entries[id].job, now)
    && forall other | other in entries && Claimable(entries[other].job, now) ::
         NoLater(entries[id].job, entries[other].job)
  }

  ghost function First(entries: Entries, now: Time): Option<string> {
    if exists id :: IsFirst(entries, now, id) then
      var id :| IsFirst(entries, now, id);
      Some(id)
    else None
  }

  /** What `claim_next` looks at once the rows are reclaimed and reconciled. */
  ghost function Choose(entries: Entries, now: Time): Option<string> {
    if AnyRunning(entries) || Deferred(entries, now) then None else First(entries, now)
  }

  ghost function ClaimNext(cfg: Config, db: Db, now: Time, token: string): Outcome<Option<WorkerClaim>> {
    var reclaimed := db.(entries := ReclaimAll(cfg, db.entries, now));
    if !Reconcilable(reclaimed) then Integrity
    else
      var ready := db.(entries := ReconcileAll(reclaimed));
      match Choose(ready.entries, now)
      case None => Ok((ready, None))
      case Some(id) =>
        var e := ready.entries[id];
        var claimed := Write(ready, id, ClaimChange(cfg, e, now, token));
        var claim := WorkerClaim(id, e.job.owner, e.job.family, e.job.checkpoint, e.job.incident,
                                 if e.mirror.Some? then Some(e.mirror.value.decision) else None, token);
        if e.mirror.None? then Ok((claimed, Some(claim)))
        else if e.job.checkpoint != Some(e.mirror.value.checkpoint) || e.mirror.value.checkpoint == "" then Integrity
        else
          match EnsureLedger(ready.ledger, id, e.mirror.value)
          case Ok(ledger) => Ok((claimed.(ledger := ledger), Some(claim)))
          case NotFound => NotFound
          case Conflict => Conflict
          case Integrity => Integrity
          case Invalid => Invalid
  }

  function Renew(cfg: Config, db: Db, id: string, token: string, now: Time): Outcome<()> {
    if id !in db.entries then Conflict else Written(db, id, RenewChange(cfg, db.entries[id], token, now))
  }

  function Reserve(db: Db, id: string, token: string, now: Time): Outcome<string> {
    if id !in db.entries then NotFound else WrittenWith(db, id, ReserveChange(id, db.entries[id], token, now))
  }

  function Pause(db: Db, id: string, checkpoint: string, token: string, now: Time): Outcome<()> {
    if IsBlank(checkpoint) then Invalid
    else if id !in db.entries then NotFound
    else Written(db, id, PauseChange(db.entries[id], checkpoint, token, now))
  }

  function Requeue(db: Db, id: string, token: string): Outcome<()> {
    if id !in db.entries then Conflict else Written(db, id, RequeueChange(db.entries[id], token))
  }

  function Retry(cfg: Config, db: Db, id: string, token: string, now: Time, error: string): Outcome<bool> {
    if id !in db.entries then NotFound else WrittenWith(db, id, RetryChange(cfg, db.entries[id], token, now, error))
  }

  function Finalize(db: Db, id: string, artifact: string, token: string, now: Time, snapshot: Option<string>): Outcome<()> {
    if IsBlank(artifact) then Invalid
    else if id !in db.entries then NotFound
    else Written(db, id, FinalizeChange(id, db.entries[id], artifact, token, now, snapshot))
  }

  function ReclaimDeliveries(cfg: Config, entries: Entries, now: Time): Entries {
    map id | id in entries :: Commit(entries[id], ReclaimDeliveryChange(cfg, entries[id], now))
  }

  predicate Deliverable(e: Entry, now: Time) {
    e.delivery.Some? && e.delivery.value.status == Pending && e.delivery.value.failure.None?
    && e.delivery.value.availableAt <= now
  }

  /** ORDER BY d.available_at, j.rowid */
  predicate DeliverNoLater(a: Entry, b: Entry)
    requires a.delivery.Some? && b.delivery.Some?
  {
    if a.delivery.value.availableAt != b.delivery.value.availableAt then
      a.delivery.value.availableAt < b.delivery.value.availableAt
    else a.job.position <= b.job.position
  }

  ghost predicate IsFirstDelivery(entries: Entries, now: Time, id: string) {
    && id in entries && Deliverable(entries[id], now)
    && forall other | other in entries && Deliverable(entries[other], now) ::
         DeliverNoLater(entries[id], entries[other])
  }

  ghost function FirstDelivery(entries: Entries, now: Time): Option<string> {
    if exists id :: IsFirstDelivery(entries, now, id) then
      var id :| IsFirstDelivery(entries, now, id);
      Some(id)
    else None
  }

  function DeliveryClaimOf(id: string, e: Entry, token: string): DeliveryClaim
    requires e.delivery.Some?
  {
    DeliveryClaim(id, e.job.artifact, e.job.content, e.job.digest, e.delivery.value.destination, token)
  }

  ghost function ClaimDelivery(cfg: Config, db: Db, now: Time, token: string): Outcome<Option<DeliveryClaim>> {
    var ready := db.(entries := ReclaimDeliveries(cfg, db.entries, now));
    match FirstDelivery(ready.entries, now)
    case None => Ok((ready, None))
    case Some(id) =>
      Ok((Write(ready, id, ClaimDeliveryChange(cfg, ready.entries[id], now, token)),
          Some(DeliveryClaimOf(id, ready.entries[id], token))))
  }

  function MarkDelivered(db: Db, id: string, token: string, now: Time): Outcome<()> {
    if id !in db.entries then Conflict else Written(db, id, DeliveredChange(db.entries[id], token, now))
  }

  function RenewDelivery(cfg: Config, db: Db, id: string, token: string, now: Time): Outcome<()> {
    if id !in db.entries then Conflict else Written(db, id, RenewDeliveryChange(cfg, db.entries[id], token, now))
  }

  function ReleaseDelivery(db: Db, id: string, token: string): Outcome<()> {
    if id !in db.entries then Conflict else Written(db, id, ReleaseDeliveryChange(db.entries[id], token))
  }

  function RetryDelivery(cfg: Config, db: Db, id: string, token: string, now: Time, error: string): Outcome<bool> {
    if id !in db.entries then NotFound
    else WrittenWith(db, id, RetryDeliveryChange(cfg, db.entries[id], token, now, error))
  }

  /** `report`: what an owner downloads. */
  function Report(db: Db, owner: string, id: string): Reply<string> {
    if id !in db.entries || db.entries[id].job.owner != owner then NotFound
    else
      var job := db.entries[id].job;
      if job.status != Completed then Conflict
      else if job.artifact.None? || job.content.None? || job.digest.None? then Integrity
      else if !OwnReport(id, job.artifact.value) then Integrity
      else if Sha256(job.content.value) != job.digest.value then Integrity
      else Ok(job.content.value)
  }

  /** `status` */
  function StatusOf(db: Db, owner: string, id: string): Reply<View> {
    if id !in db.entries || db.entries[id].job.owner != owner then NotFound
    else Ok(View(id, Show(db.entries[id].job)))
  }
}

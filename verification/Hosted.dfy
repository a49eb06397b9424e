/** The hosted control plane (`firestore_control_plane.py`) against the SQLite one. It keeps one
    decision document per job where SQLite keeps a ledger and a mirror, numbers events by counting
    them, and orders deliveries by the turn in which they were finalized. */
module Hosted {
  import opened Wrappers
  import opened Text
  import opened Decisions
  import opened ControlPlane
  import opened Timeline
  import opened PlaneRuns
  import opened PlaneSteps
  import opened PlaneHistory

  /** `turns` is the `sequence` of each delivery document. A job's `sequence` is its position
      counted from zero. */
  datatype Store = Store(entries: Entries, turns: map<string, nat>)

  /** `_event`: the ordinal is the number of events there are. */
  function CommitByCount(e: Entry, c: Change): Entry {
    Entry(c.job, if c.event.None? then e.timeline else e.timeline + [EventRow(|e.timeline|, c.event.value)], c.mirror, c.delivery)
  }

  function Put(h: Store, id: string, c: Change): Store
    requires id in h.entries
  {
    h.(entries := h.entries[id := CommitByCount(h.entries[id], c)])
  }

  function PutIfOk<T>(h: Store, id: string, r: Reply<(Change, T)>): (Store, Reply<T>)
    requires id in h.entries
  {
    match r
    case Ok(p) => (Put(h, id, p.0), Ok(p.1))
    case NotFound => (h, NotFound)
    case Conflict => (h, Conflict)
    case Integrity => (h, Integrity)
    case Invalid => (h, Invalid)
  }

  function NoAnswer(r: Reply<Change>): Reply<(Change, ())> {
    match r
    case Ok(c) => Ok((c, ()))
    case NotFound => NotFound
    case Conflict => Conflict
    case Integrity => Integrity
    case Invalid => Invalid
  }

  ghost function Create(h: Store, owner: string, family: string, key: string, id: string): (Store, Reply<View>) {
    if exists prior :: prior in h.entries && SameRequest(h.entries[prior].job, owner, key) then
      var prior :| prior in h.entries && SameRequest(h.entries[prior].job, owner, key);
      (h, Ok(View(prior, Show(h.entries[prior].job))))
    else
      var entry := Entry(NewJob(|h.entries| + 1, owner, family, key), [EventRow(0, InvestigationQueued)], None, None);
      (h.(entries := h.entries[id := entry]), Ok(View(id, Stored(Queued))))
  }

  /** One batch writes the decision document, the job and the event. */
  function Decide(h: Store, owner: string, id: string, d: OwnerDecision): (Store, Reply<View>) {
    if id !in h.entries || h.entries[id].job.owner != owner then (h, NotFound)
    else
      var e := h.entries[id];
      var checkpoint := if e.job.checkpoint.Some? then e.job.checkpoint.value else "";
      if e.mirror.Some? then
        if checkpoint == "" || e.mirror.value.checkpoint != checkpoint then (h, Integrity)
        else if e.mirror.value.decision != d then (h, Conflict)
        else (h, Ok(View(id, Show(e.job))))
      else if e.job.status != PausedApproval then (h, Conflict)
      else if checkpoint == "" then (h, Integrity)
      else
        (Put(h, id, Change(e.job.(status := Queued), Some(DecisionRow(checkpoint, d)), e.delivery,
                           Some(DecisionRecorded(checkpoint, d.verdict)))),
         Ok(View(id, Stored(Queued))))
  }

  function ReclaimByCount(cfg: Config, entries: Entries, now: Time): Entries {
    map id | id in entries :: CommitByCount(entries[id], ReclaimChange(cfg, entries[id], now))
  }

  /** Nothing rolls back: an integrity error leaves the job running. */
  function Start(cfg: Config, ready: Store, id: string, now: Time, token: string): (Store, Reply<Option<WorkerClaim>>)
    requires id in ready.entries
  {
    var e := ready.entries[id];
    var claimed := Put(ready, id, ClaimChange(cfg, e, now, token));
    if e.mirror.Some? && (e.mirror.value.checkpoint == "" || e.job.checkpoint != Some(e.mirror.value.checkpoint)) then
      (claimed, Integrity)
    else
      (claimed, Ok(Some(WorkerClaim(id, e.job.owner, e.job.family, e.job.checkpoint, e.job.incident,
                                    if e.mirror.Some? then Some(e.mirror.value.decision) else None, token))))
  }

  /** Nothing is reconciled. */
  ghost function ClaimNext(cfg: Config, h: Store, now: Time, token: string): (Store, Reply<Option<WorkerClaim>>) {
    var ready := h.(entries := ReclaimByCount(cfg, h.entries, now));
    match Choose(ready.entries, now)
    case None => (ready, Ok(None))
    case Some(id) => Start(cfg, ready, id, now, token)
  }

  /** Whether a delivery document exists already is not looked at. */
  function Finalize(h: Store, id: string, artifact: string, token: string, now: Time, snapshot: Option<string>): (Store, Reply<()>) {
    if IsBlank(artifact) then (h, Invalid)
    else if id !in h.entries then (h, NotFound)
    else
      var r := FinalizeChange(id, h.entries[id].(delivery := None), artifact, token, now, snapshot);
      if r.Ok? then (Put(h, id, r.value).(turns := h.turns[id := |h.turns|]), Ok(()))
      else PutIfOk(h, id, NoAnswer(r))
  }

  function ReclaimDeliveriesByCount(cfg: Config, entries: Entries, now: Time): Entries {
    map id | id in entries :: CommitByCount(entries[id], ReclaimDeliveryChange(cfg, entries[id], now))
  }

  /** sort key (available_at, sequence) */
  ghost predicate IsNextTurn(h: Store, now: Time, id: string) {
    && id in h.entries && Deliverable(h.entries[id], now) && id in h.turns
    && forall other | other in h.entries && Deliverable(h.entries[other], now) && other in h.turns ::
         if h.entries[id].delivery.value.availableAt != h.entries[other].delivery.value.availableAt then
           h.entries[id].delivery.value.availableAt < h.entries[other].delivery.value.availableAt
         else h.turns[id] <= h.turns[other]
  }

  ghost function NextTurn(h: Store, now: Time): Option<string> {
    if exists id :: IsNextTurn(h, now, id) then
      var id :| IsNextTurn(h, now, id);
      Some(id)
    else None
  }

  ghost function ClaimDelivery(cfg: Config, h: Store, now: Time, token: string): (Store, Reply<Option<DeliveryClaim>>) {
    var ready := h.(entries := ReclaimDeliveriesByCount(cfg, h.entries, now));
    match NextTurn(ready, now)
    case None => (ready, Ok(None))
    case Some(id) =>
      (Put(ready, id, ClaimDeliveryChange(cfg, ready.entries[id], now, token)),
       Ok(Some(DeliveryClaimOf(id, ready.entries[id], token))))
  }

  // ---------------------------------------------------------------- any operation, and its answer

  datatype Said =
    | SaidNothing
    | SaidView(view: Reply<View>)
    | SaidDone(done: Reply<()>)
    | SaidRetryable(retryable: Reply<bool>)
    | SaidIncident(incident: Reply<string>)
    | SaidClaim(claim: Reply<Option<WorkerClaim>>)
    | SaidDelivery(delivery: Reply<Option<DeliveryClaim>>)

  /** The operations both control planes have: no command-line ledger, no crash between databases. */
  predicate Shared(op: Op) {
    !op.OpDecideThenCrash? && !op.OpCliRecord? && !op.OpCliRetry?
  }

  ghost function SqliteSays(cfg: Config, db: Db, op: Op): Said {
    match op
    case OpCreate(owner, family, key, id) => SaidView(Answer(ControlPlane.Create(db, owner, family, key, id)))
    case OpDecide(owner, id, d) => SaidView(Answer(ControlPlane.Decide(db, owner, id, d)))
    case OpClaimNext(now, token) => SaidClaim(Answer(ControlPlane.ClaimNext(cfg, db, now, token)))
    case OpRenew(id, token, now) => SaidDone(Answer(Renew(cfg, db, id, token, now)))
    case OpReserve(id, token, now) => SaidIncident(Answer(Reserve(db, id, token, now)))
    case OpPause(id, checkpoint, token, now) => SaidDone(Answer(Pause(db, id, checkpoint, token, now)))
    case OpRequeue(id, token) => SaidDone(Answer(Requeue(db, id, token)))
    case OpRetry(id, token, now, reason) => SaidRetryable(Answer(Retry(cfg, db, id, token, now, reason)))
    case OpFinalize(id, artifact, token, now, snapshot) =>
      SaidDone(Answer(ControlPlane.Finalize(db, id, artifact, token, now, snapshot)))
    case OpClaimDelivery(now, token) => SaidDelivery(Answer(ControlPlane.ClaimDelivery(cfg, db, now, token)))
    case OpDelivered(id, token, now) => SaidDone(Answer(MarkDelivered(db, id, token, now)))
    case OpRenewDelivery(id, token, now) => SaidDone(Answer(RenewDelivery(cfg, db, id, token, now)))
    case OpReleaseDelivery(id, token) => SaidDone(Answer(ReleaseDelivery(db, id, token)))
    case OpRetryDelivery(id, token, now, reason) => SaidRetryable(Answer(RetryDelivery(cfg, db, id, token, now, reason)))
    case _ => SaidNothing
  }

  function OnJob<T>(h: Store, id: string, missing: Reply<T>, r: Reply<(Change, T)>): (Store, Reply<T>) {
    if id in h.entries then PutIfOk(h, id, r) else (h, missing)
  }

  function RowOf(h: Store, id: string): Entry {
    if id in h.entries then h.entries[id]
    else Entry(NewJob(0, "", "", ""), [], None, None)
  }

  ghost function Does(cfg: Config, h: Store, op: Op): (Store, Said) {
    match op
    case OpCreate(owner, family, key, id) => var r := Create(h, owner, family, key, id); (r.0, SaidView(r.1))
    case OpDecide(owner, id, d) => var r := Decide(h, owner, id, d); (r.0, SaidView(r.1))
    case OpClaimNext(now, token) => var r := ClaimNext(cfg, h, now, token); (r.0, SaidClaim(r.1))
    case OpRenew(id, token, now) =>
      var r := OnJob(h, id, Conflict, NoAnswer(RenewChange(cfg, RowOf(h, id), token, now)));
      (r.0, SaidDone(r.1))
    case OpReserve(id, token, now) =>
      var r := OnJob(h, id, NotFound, ReserveChange(id, RowOf(h, id), token, now));
      (r.0, SaidIncident(r.1))
    case OpPause(id, checkpoint, token, now) =>
      if IsBlank(checkpoint) then (h, SaidDone(Invalid))
      else
        var r := OnJob(h, id, NotFound, NoAnswer(PauseChange(RowOf(h, id), checkpoint, token, now)));
        (r.0, SaidDone(r.1))
    case OpRequeue(id, token) =>
      var r := OnJob(h, id, Conflict, NoAnswer(RequeueChange(RowOf(h, id), token)));
      (r.0, SaidDone(r.1))
    case OpRetry(id, token, now, reason) =>
      var r := OnJob(h, id, NotFound, RetryChange(cfg, RowOf(h, id), token, now, reason));
      (r.0, SaidRetryable(r.1))
    case OpFinalize(id, artifact, token, now, snapshot) =>
      var r := Finalize(h, id, artifact, token, now, snapshot);
      (r.0, SaidDone(r.1))
    case OpClaimDelivery(now, token) => var r := ClaimDelivery(cfg, h, now, token); (r.0, SaidDelivery(r.1))
    case OpDelivered(id, token, now) =>
      var r := OnJob(h, id, Conflict, NoAnswer(DeliveredChange(RowOf(h, id), token, now)));
      (r.0, SaidDone(r.1))
    case OpRenewDelivery(id, token, now) =>
      var r := OnJob(h, id, Conflict, NoAnswer(RenewDeliveryChange(cfg, RowOf(h, id), token, now)));
      (r.0, SaidDone(r.1))
    case OpReleaseDelivery(id, token) =>
      var r := OnJob(h, id, Conflict, NoAnswer(ReleaseDeliveryChange(RowOf(h, id), token)));
      (r.0, SaidDone(r.1))
    case OpRetryDelivery(id, token, now, reason) =>
      var r := OnJob(h, id, NotFound, RetryDeliveryChange(cfg, RowOf(h, id), token, now, reason));
      (r.0, SaidRetryable(r.1))
    case _ => (h, SaidNothing)
  }

  // ---------------------------------------------------------------- the simulation relation

  /** The one decision collection plays both of SQLite's parts. */
  function DecisionDocs(entries: Entries): Ledger {
    map id | id in entries && entries[id].mirror.Some? :: entries[id].mirror.value
  }

  ghost predicate TakesTurns(h: Store) {
    && (forall id | id in h.entries :: id in h.turns <==> h.entries[id].delivery.Some?)
    && (forall id | id in h.turns :: id in h.entries && h.turns[id] < |h.turns|)
    && (forall a, b | a in h.turns && b in h.turns && h.turns[a] == h.turns[b] :: a == b)
  }

  /** The two control planes hold the same jobs, timelines, decisions and deliveries. */
  ghost predicate Mirrored(h: Store, db: Db) {
    db.entries == h.entries && db.ledger == DecisionDocs(h.entries) && TakesTurns(h)
  }

  lemma CountingIsNumbering(e: Entry, c: Change)
    requires Numbered(e.timeline)
    ensures CommitByCount(e, c) == Commit(e, c)
  {
    if c.event.Some? { NextOrdinalIsCount(e.timeline); }
  }

  /** A change to one job's rows that leaves its decision alone, and its delivery where it is. */
  ghost predicate Plain(e: Entry, c: Change) {
    c.mirror == e.mirror && (c.delivery.Some? <==> e.delivery.Some?)
  }

  lemma PlainKeepsMirrored(h: Store, db: Db, id: string, c: Change)
    requires Mirrored(h, db) && id in h.entries && Numbered(h.entries[id].timeline) && Plain(h.entries[id], c)
    ensures Mirrored(Put(h, id, c), Write(db, id, c))
  {
    CountingIsNumbering(h.entries[id], c);
    hide Numbered, Append;
    var after := Put(h, id, c).entries;
    assert DecisionDocs(after) == DecisionDocs(h.entries);
    assert after == Write(db, id, c).entries;
  }

  // ---------------------------------------------------------------- operations on one job's rows

  lemma WorkerChangesArePlain(cfg: Config, id: string, e: Entry, token: string, now: Time, checkpoint: string, reason: string)
    ensures RenewChange(cfg, e, token, now).Ok? ==> Plain(e, RenewChange(cfg, e, token, now).value)
    ensures ReserveChange(id, e, token, now).Ok? ==> Plain(e, ReserveChange(id, e, token, now).value.0)
    ensures PauseChange(e, checkpoint, token, now).Ok? ==> Plain(e, PauseChange(e, checkpoint, token, now).value)
    ensures RequeueChange(e, token).Ok? ==> Plain(e, RequeueChange(e, token).value)
    ensures RetryChange(cfg, e, token, now, reason).Ok? ==> Plain(e, RetryChange(cfg, e, token, now, reason).value.0)
    ensures Plain(e, ReclaimChange(cfg, e, now)) && Plain(e, ClaimChange(cfg, e, now, token))
  {
    hide RetryDelay, Attempted, IncidentOf;
  }

  lemma SenderChangesArePlain(cfg: Config, e: Entry, token: string, now: Time, reason: string)
    ensures DeliveredChange(e, token, now).Ok? ==> Plain(e, DeliveredChange(e, token, now).value)
    ensures RenewDeliveryChange(cfg, e, token, now).Ok? ==> Plain(e, RenewDeliveryChange(cfg, e, token, now).value)
    ensures ReleaseDeliveryChange(e, token).Ok? ==> Plain(e, ReleaseDeliveryChange(e, token).value)
    ensures RetryDeliveryChange(cfg, e, token, now, reason).Ok? ==> Plain(e, RetryDeliveryChange(cfg, e, token, now, reason).value.0)
    ensures Plain(e, ReclaimDeliveryChange(cfg, e, now))
    ensures e.delivery.Some? ==> Plain(e, ClaimDeliveryChange(cfg, e, now, token))
  {
    hide RetryDelay, Undeliverable;
  }

  lemma PlainWriteAgrees(h: Store, db: Db, id: string, r: Reply<Change>)
    requires Mirrored(h, db) && id in h.entries && Numbered(h.entries[id].timeline)
    requires r.Ok? ==> Plain(h.entries[id], r.value)
    ensures var (h', said), out := PutIfOk(h, id, NoAnswer(r)), Written(db, id, r);
            Mirrored(h', After(db, out)) && said == Answer(out)
  {
    if r.Ok? { PlainKeepsMirrored(h, db, id, r.value); }
    hide Mirrored, Put, Write, Numbered, Plain;
  }

  lemma PlainAnswerAgrees<T>(h: Store, db: Db, id: string, r: Reply<(Change, T)>)
    requires Mirrored(h, db) && id in h.entries && Numbered(h.entries[id].timeline)
    requires r.Ok? ==> Plain(h.entries[id], r.value.0)
    ensures var (h', said), out := PutIfOk(h, id, r), WrittenWith(db, id, r);
            Mirrored(h', After(db, out)) && said == Answer(out)
  {
    if r.Ok? { PlainKeepsMirrored(h, db, id, r.value.0); }
    hide Mirrored, Put, Write, Numbered, Plain;
  }

  /** Same answer, and the stores still hold the same. */
  ghost predicate Agrees(cfg: Config, h: Store, db: Db, op: Op) {
    var (h', said) := Does(cfg, h, op);
    said == SqliteSays(cfg, db, op) && Mirrored(h', DbAfter(cfg, db, op))
  }

  lemma WorkerOperationsAgree(cfg: Config, h: Store, db: Db, op: Op)
    requires Mirrored(h, db)
    requires op.OpRenew? || op.OpReserve? || op.OpPause? || op.OpRequeue? || op.OpRetry?
    requires op.id in h.entries ==> Numbered(h.entries[op.id].timeline)
    ensures Agrees(cfg, h, db, op)
  {
    if op.OpPause? || op.OpRetry? {
      hide Agrees, Mirrored, Numbered;
      SetbacksAgree(cfg, h, db, op);
    } else {
      hide Agrees, Mirrored, Numbered;
      HoldersAgree(cfg, h, db, op);
    }
  }

  lemma HoldersAgree(cfg: Config, h: Store, db: Db, op: Op)
    requires Mirrored(h, db)
    requires op.OpRenew? || op.OpReserve? || op.OpRequeue?
    requires op.id in h.entries ==> Numbered(h.entries[op.id].timeline)
    ensures Agrees(cfg, h, db, op)
  {
    assert h.entries == db.entries;
    hide Mirrored, Numbered, Plain, PutIfOk, Written, WrittenWith, Answer, RenewChange, ReserveChange, RequeueChange, NoAnswer;
    BlankAgrees(h, db);
    if op.id in h.entries {
      var e := h.entries[op.id];
      match op {
        case OpRenew(id, token, now) =>
          WorkerChangesArePlain(cfg, id, e, token, now, "", "");
          PlainWriteAgrees(h, db, id, RenewChange(cfg, e, token, now));
        case OpReserve(id, token, now) =>
          WorkerChangesArePlain(cfg, id, e, token, now, "", "");
          PlainAnswerAgrees(h, db, id, ReserveChange(id, e, token, now));
        case OpRequeue(id, token) =>
          WorkerChangesArePlain(cfg, id, e, token, 0.0, "", "");
          PlainWriteAgrees(h, db, id, RequeueChange(e, token));
      }
    }
  }

  lemma SetbacksAgree(cfg: Config, h: Store, db: Db, op: Op)
    requires Mirrored(h, db)
    requires op.OpPause? || op.OpRetry?
    requires op.id in h.entries ==> Numbered(h.entries[op.id].timeline)
    ensures Agrees(cfg, h, db, op)
  {
    assert h.entries == db.entries;
    hide Mirrored, Numbered, Plain, PutIfOk, Written, WrittenWith, Answer, IsBlank, PauseChange, RetryChange, NoAnswer;
    BlankAgrees(h, db);
    if op.id in h.entries {
      var e := h.entries[op.id];
      match op {
        case OpPause(id, checkpoint, token, now) =>
          WorkerChangesArePlain(cfg, id, e, token, now, checkpoint, "");
          PlainWriteAgrees(h, db, id, PauseChange(e, checkpoint, token, now));
        case OpRetry(id, token, now, reason) =>
          WorkerChangesArePlain(cfg, id, e, token, now, "", reason);
          PlainAnswerAgrees(h, db, id, RetryChange(cfg, e, token, now, reason));
      }
    }
  }

  lemma BlankAgrees(h: Store, db: Db)
    ensures Answer<()>(Invalid) == Invalid && Answer<()>(Conflict) == Conflict && Answer<()>(NotFound) == NotFound
    ensures Answer<string>(NotFound) == NotFound && Answer<bool>(NotFound) == NotFound
  {
  }

  lemma SendingAgrees(cfg: Config, h: Store, db: Db, op: Op)
    requires Mirrored(h, db) && (op.OpDelivered? || op.OpRenewDelivery?)
    requires op.id in h.entries ==> Numbered(h.entries[op.id].timeline)
    ensures Agrees(cfg, h, db, op)
  {
    assert h.entries == db.entries;
    hide Mirrored, Numbered, Plain, PutIfOk, Written, Answer, DeliveredChange, RenewDeliveryChange, NoAnswer;
    if op.id in h.entries {
      var e := h.entries[op.id];
      SenderChangesArePlain(cfg, e, op.token, op.now, "");
      if op.OpDelivered? {
        PlainWriteAgrees(h, db, op.id, DeliveredChange(e, op.token, op.now));
      } else {
        PlainWriteAgrees(h, db, op.id, RenewDeliveryChange(cfg, e, op.token, op.now));
      }
    } else {
      BlankAgrees(h, db);
    }
  }

  lemma ReturningAgrees(cfg: Config, h: Store, db: Db, op: Op)
    requires Mirrored(h, db) && (op.OpReleaseDelivery? || op.OpRetryDelivery?)
    requires op.id in h.entries ==> Numbered(h.entries[op.id].timeline)
    ensures Agrees(cfg, h, db, op)
  {
    assert h.entries == db.entries;
    hide Mirrored, Numbered, Plain, PutIfOk, Written, WrittenWith, Answer, ReleaseDeliveryChange, RetryDeliveryChange, NoAnswer;
    if op.id in h.entries {
      var e := h.entries[op.id];
      if op.OpReleaseDelivery? {
        SenderChangesArePlain(cfg, e, op.token, 0.0, "");
        PlainWriteAgrees(h, db, op.id, ReleaseDeliveryChange(e, op.token));
      } else {
        SenderChangesArePlain(cfg, e, op.token, op.now, op.reason);
        PlainAnswerAgrees(h, db, op.id, RetryDeliveryChange(cfg, e, op.token, op.now, op.reason));
      }
    } else {
      BlankAgrees(h, db);
    }
  }

  // ---------------------------------------------------------------- creating, deciding, finalizing

  lemma RepeatedCreateAgrees(cfg: Config, h: Store, db: Db, op: Op, prior: string)
    requires Mirrored(h, db) && op.OpCreate? && UniqueRequests(h.entries)
    requires prior in h.entries && SameRequest(h.entries[prior].job, op.owner, op.key)
    ensures Agrees(cfg, h, db, op)
  {
    assert db.entries == h.entries;
    forall other | other in h.entries && SameRequest(h.entries[other].job, op.owner, op.key) ensures other == prior {
      assert SameRequest(h.entries[other].job, h.entries[prior].job.owner, h.entries[prior].job.key);
    }
    hide UniqueRequests, SameRequest, Mirrored, Show;
  }

  lemma InsertingKeepsMirrored(h: Store, db: Db, id: string, e: Entry)
    requires Mirrored(h, db) && id !in h.entries && e.mirror.None? && e.delivery.None?
    ensures Mirrored(h.(entries := h.entries[id := e]), db.(entries := db.entries[id := e]))
  {
    assert id !in h.turns;
    assert DecisionDocs(h.entries[id := e]) == DecisionDocs(h.entries);
  }

  lemma NewCreateAgrees(cfg: Config, h: Store, db: Db, op: Op)
    requires Mirrored(h, db) && op.OpCreate? && op.id !in h.entries
    requires forall prior | prior in h.entries :: !SameRequest(h.entries[prior].job, op.owner, op.key)
    ensures Agrees(cfg, h, db, op)
  {
    assert db.entries == h.entries;
    assert Append([], Some(InvestigationQueued)) == [EventRow(0, InvestigationQueued)];
    var e := Entry(NewJob(|h.entries| + 1, op.owner, op.family, op.key), [EventRow(0, InvestigationQueued)], None, None);
    InsertingKeepsMirrored(h, db, op.id, e);
    hide Mirrored, SameRequest, NewJob;
  }

  lemma CreateAgrees(cfg: Config, h: Store, db: Db, op: Op)
    requires Mirrored(h, db) && op.OpCreate? && op.id !in h.entries && UniqueRequests(h.entries)
    ensures Agrees(cfg, h, db, op)
  {
    hide Mirrored, UniqueRequests, Agrees;
    if prior :| prior in h.entries && SameRequest(h.entries[prior].job, op.owner, op.key) {
      RepeatedCreateAgrees(cfg, h, db, op, prior);
    } else {
      NewCreateAgrees(cfg, h, db, op);
    }
  }

  /** When the job is not waiting for its first decision, neither store changes. */
  lemma LateDecisionAgrees(cfg: Config, h: Store, db: Db, op: Op, e: Entry)
    requires Mirrored(h, db) && op.OpDecide? && op.id in h.entries && h.entries[op.id] == e
    requires e.job.owner != op.owner || e.mirror.Some? || e.job.status != PausedApproval || e.job.checkpoint.None?
    ensures Agrees(cfg, h, db, op)
  {
    assert e.mirror.Some? ==> op.id in db.ledger && db.ledger[op.id] == e.mirror.value;
    assert db.entries == h.entries;
    hide Mirrored, Show;
    var out := ControlPlane.Decide(db, op.owner, op.id, op.decision);
    assert After(db, out) == db;
  }

  lemma FirstDecisionAgrees(cfg: Config, h: Store, db: Db, op: Op, e: Entry)
    requires Mirrored(h, db) && op.OpDecide? && op.id in h.entries && h.entries[op.id] == e && Numbered(e.timeline)
    requires e.job.owner == op.owner && e.mirror.None? && e.job.status == PausedApproval
    requires e.job.checkpoint.Some? && e.job.checkpoint.value != ""
    ensures Agrees(cfg, h, db, op)
  {
    var row := DecisionRow(e.job.checkpoint.value, op.decision);
    var c := Change(e.job.(status := Queued), Some(row), e.delivery, Some(DecisionRecorded(row.checkpoint, row.decision.verdict)));
    CountingIsNumbering(e, c);
    assert op.id !in db.ledger && db.entries == h.entries;
    DecidingWrites(h, db, op.id, c, row);
    hide Mirrored, Numbered, Write, Put;
  }

  lemma DecideAgrees(cfg: Config, plan: Plan, h: Store, db: Db, issued: set<string>, op: Op)
    requires cfg.Valid() && GoodDb(cfg, plan, db, issued)
    requires Mirrored(h, db) && op.OpDecide?
    ensures Agrees(cfg, h, db, op)
  {
    if op.id in h.entries {
      EntryIsHealthy(cfg, plan, db, issued, op.id);
      var e := h.entries[op.id];
      hide GoodDb, Mirrored, Agrees;
      if e.job.owner != op.owner || e.mirror.Some? || e.job.status != PausedApproval {
        LateDecisionAgrees(cfg, h, db, op, e);
      } else {
        FirstDecisionAgrees(cfg, h, db, op, e);
      }
    } else {
      hide GoodDb, TakesTurns;
    }
  }

  lemma DecidingWrites(h: Store, db: Db, id: string, c: Change, row: DecisionRow)
    requires Mirrored(h, db) && id in h.entries && id !in db.ledger && CommitByCount(h.entries[id], c) == Commit(h.entries[id], c)
    requires c.mirror == Some(row) && c.delivery == h.entries[id].delivery
    ensures Mirrored(Put(h, id, c), Write(db.(ledger := db.ledger[id := row]), id, c))
  {
    hide Append;
    var after := Put(h, id, c).entries;
    assert DecisionDocs(after) == DecisionDocs(h.entries)[id := row];
  }

  lemma FinalizeRowAgrees(cfg: Config, h: Store, db: Db, op: Op, e: Entry)
    requires Mirrored(h, db) && op.OpFinalize? && op.id in h.entries && h.entries[op.id] == e && Numbered(e.timeline)
    requires e.delivery.Some? ==> e.job.status == Completed
    ensures Agrees(cfg, h, db, op)
  {
    var r := FinalizeChange(op.id, e, op.artifact, op.token, op.now, op.snapshot);
    assert FinalizeChange(op.id, e.(delivery := None), op.artifact, op.token, op.now, op.snapshot) == r by {
      if e.delivery.None? { assert e.(delivery := None) == e; }
    }
    if r.Ok? {
      CountingIsNumbering(e, r.value);
      FinalizingWrites(h, db, op.id, r.value);
    }
    assert db.entries == h.entries;
    hide Mirrored, Put, Write, IsBlank, FinalizeChange, Numbered, CommitByCount;
  }

  lemma FinalizeAgrees(cfg: Config, plan: Plan, h: Store, db: Db, issued: set<string>, op: Op)
    requires cfg.Valid() && GoodDb(cfg, plan, db, issued)
    requires Mirrored(h, db) && op.OpFinalize?
    ensures Agrees(cfg, h, db, op)
  {
    if op.id in h.entries {
      EntryIsHealthy(cfg, plan, db, issued, op.id);
      hide GoodDb, Agrees, Mirrored;
      FinalizeRowAgrees(cfg, h, db, op, h.entries[op.id]);
    } else {
      hide GoodDb, TakesTurns, IsBlank;
    }
  }

  lemma FinalizingWrites(h: Store, db: Db, id: string, c: Change)
    requires Mirrored(h, db) && id in h.entries && h.entries[id].delivery.None? && c.delivery.Some? && c.mirror == h.entries[id].mirror
    requires CommitByCount(h.entries[id], c) == Commit(h.entries[id], c)
    ensures Mirrored(Put(h, id, c).(turns := h.turns[id := |h.turns|]), Write(db, id, c))
  {
    hide Append;
    assert id !in h.turns;
    assert DecisionDocs(Put(h, id, c).entries) == DecisionDocs(h.entries);
  }

  // ---------------------------------------------------------------- claiming

  /** Between operations no decided job is left paused, so there is nothing to reconcile. */
  lemma NothingToReconcile(cfg: Config, plan: Plan, db: Db, issued: set<string>)
    requires cfg.Valid() && GoodDb(cfg, plan, db, issued)
    requires forall id | id in db.entries :: Lookup(db.ledger, id) == db.entries[id].mirror
    ensures Reconcilable(db) && ReconcileAll(db) == db.entries
  {
    forall id | id in db.entries
      ensures var r := ReconcileChange(db.entries[id], Lookup(db.ledger, id));
              r == Ok(Keep(db.entries[id])) && Commit(db.entries[id], r.value) == db.entries[id]
    {
      EntryIsHealthy(cfg, plan, db, issued, id);
    }
    hide GoodDb, ReconcileChange, Commit;
    assert ReconcileAll(db) == db.entries;
  }

  lemma ReclaimingIsPlain(cfg: Config, e: Entry, now: Time)
    requires Numbered(e.timeline)
    ensures CommitByCount(e, ReclaimChange(cfg, e, now)) == Commit(e, ReclaimChange(cfg, e, now))
    ensures CommitByCount(e, ReclaimDeliveryChange(cfg, e, now)) == Commit(e, ReclaimDeliveryChange(cfg, e, now))
    ensures SameShape(e, CommitByCount(e, ReclaimChange(cfg, e, now)))
    ensures SameShape(e, CommitByCount(e, ReclaimDeliveryChange(cfg, e, now)))
  {
    CountingIsNumbering(e, ReclaimChange(cfg, e, now));
    CountingIsNumbering(e, ReclaimDeliveryChange(cfg, e, now));
    WorkerChangesArePlain(cfg, "", e, "", now, "", "");
    SenderChangesArePlain(cfg, e, "", now, "");
    hide ReclaimChange, ReclaimDeliveryChange, Numbered, Append;
  }

  ghost predicate SameShape(e: Entry, e': Entry) {
    e'.mirror == e.mirror && (e'.delivery.Some? <==> e.delivery.Some?)
  }

  lemma SameShapesKeepMirrored(h: Store, db: Db, entries: Entries)
    requires Mirrored(h, db) && entries.Keys == h.entries.Keys
    requires forall id | id in entries :: SameShape(h.entries[id], entries[id])
    ensures Mirrored(h.(entries := entries), db.(entries := entries))
  {
    assert DecisionDocs(entries) == DecisionDocs(h.entries);
  }

  lemma ReclaimKeepsMirrored(cfg: Config, h: Store, db: Db, now: Time)
    requires Mirrored(h, db) && forall id | id in h.entries :: Numbered(h.entries[id].timeline)
    ensures Mirrored(h.(entries := ReclaimByCount(cfg, h.entries, now)), db.(entries := ReclaimAll(cfg, db.entries, now)))
    ensures Mirrored(h.(entries := ReclaimDeliveriesByCount(cfg, h.entries, now)),
                     db.(entries := ReclaimDeliveries(cfg, db.entries, now)))
  {
    hide ReclaimChange, ReclaimDeliveryChange, Commit, CommitByCount, Numbered, Mirrored, SameShape;
    MirroredEntries(h, db);
    var a, b := ReclaimByCount(cfg, h.entries, now), ReclaimDeliveriesByCount(cfg, h.entries, now);
    forall id | id in h.entries
      ensures a[id] == ReclaimAll(cfg, db.entries, now)[id] && b[id] == ReclaimDeliveries(cfg, db.entries, now)[id]
      ensures SameShape(h.entries[id], a[id]) && SameShape(h.entries[id], b[id])
    {
      ReclaimingIsPlain(cfg, h.entries[id], now);
    }
    assert a == ReclaimAll(cfg, db.entries, now) && b == ReclaimDeliveries(cfg, db.entries, now);
    SameShapesKeepMirrored(h, db, a);
    SameShapesKeepMirrored(h, db, b);
  }

  lemma MirroredLookup(h: Store, db: Db)
    requires Mirrored(h, db)
    ensures forall id | id in db.entries :: Lookup(db.ledger, id) == db.entries[id].mirror
  {
  }

  lemma AllNumbered(cfg: Config, plan: Plan, db: Db, issued: set<string>)
    requires cfg.Valid() && GoodDb(cfg, plan, db, issued)
    ensures forall id | id in db.entries :: Numbered(db.entries[id].timeline)
  {
    hide Replay, GoodJob, GoodDelivery, Numbered, AuditOf;
  }

  /** What `claim_next` starts from is the same on both sides. */
  lemma ReadyAgrees(cfg: Config, plan: Plan, h: Store, db: Db, issued: set<string>, now: Time)
    requires cfg.Valid() && GoodDb(cfg, plan, db, issued) && Mirrored(h, db)
    ensures Reconcilable(db.(entries := ReclaimAll(cfg, db.entries, now)))
    ensures Mirrored(h.(entries := ReclaimByCount(cfg, h.entries, now)), Ready(cfg, db, now))
    ensures GoodDb(cfg, plan, Ready(cfg, db, now), issued)
  {
    hide GoodDb, Mirrored, ReclaimAll, ReclaimByCount, ReconcileAll, Reconcilable, Numbered;
    var reclaimed := db.(entries := ReclaimAll(cfg, db.entries, now));
    assert h.entries == db.entries by { MirroredEntries(h, db); }
    AllNumbered(cfg, plan, db, issued);
    ReclaimKeepsMirrored(cfg, h, db, now);
    ReclaimKeepsGood(cfg, plan, db, issued, now);
    MirroredLookup(h.(entries := ReclaimByCount(cfg, h.entries, now)), reclaimed);
    NothingToReconcile(cfg, plan, reclaimed, issued);
  }

  lemma MirroredEntries(h: Store, db: Db)
    requires Mirrored(h, db)
    ensures h.entries == db.entries && db.ledger == DecisionDocs(h.entries)
  {
  }

  lemma StartKeepsMirrored(cfg: Config, h: Store, db: Db, id: string, now: Time, token: string)
    requires Mirrored(h, db) && id in h.entries && Numbered(h.entries[id].timeline)
    ensures Mirrored(Put(h, id, ClaimChange(cfg, h.entries[id], now, token)), Write(db, id, ClaimChange(cfg, db.entries[id], now, token)))
  {
    hide Numbered, Mirrored, Plain;
    MirroredEntries(h, db);
    WorkerChangesArePlain(cfg, id, h.entries[id], token, now, "", "");
    PlainKeepsMirrored(h, db, id, ClaimChange(cfg, h.entries[id], now, token));
  }

  lemma ClaimNextAgrees(cfg: Config, plan: Plan, h: Store, db: Db, issued: set<string>, op: Op)
    requires cfg.Valid() && GoodDb(cfg, plan, db, issued) && Mirrored(h, db) && op.OpClaimNext?
    ensures Agrees(cfg, h, db, op)
  {
    hide GoodDb, Mirrored, ReclaimAll, ReclaimByCount, ReconcileAll, Reconcilable, Numbered, Choose, ClaimChange, Put, Commit, DecisionDocs;
    var now, token := op.now, op.token;
    ReadyAgrees(cfg, plan, h, db, issued, now);
    var left, ready := h.(entries := ReclaimByCount(cfg, h.entries, now)), Ready(cfg, db, now);
    MirroredEntries(left, ready);
    ClaimNextIsSafe(cfg, plan, db, issued, now, token);
    match Choose(ready.entries, now) {
      case None =>
      case Some(id) =>
        ChosenIsQueued(cfg, plan, ready, issued, now, id);
        AllNumbered(cfg, plan, ready, issued);
        StartKeepsMirrored(cfg, left, ready, id, now, token);
    }
  }

  lemma ChosenIsQueued(cfg: Config, plan: Plan, db: Db, issued: set<string>, now: Time, id: string)
    requires cfg.Valid() && GoodDb(cfg, plan, db, issued) && Choose(db.entries, now) == Some(id)
    ensures id in db.entries
    ensures var e := db.entries[id];
            e.mirror.Some? ==> e.job.checkpoint == Some(e.mirror.value.checkpoint) && e.mirror.value.checkpoint != "" && id in db.ledger && db.ledger[id] == e.mirror.value
  {
    assert IsFirst(db.entries, now, id);
    EntryIsHealthy(cfg, plan, db, issued, id);
    QueuedDecision(cfg, plan, id, db.entries[id], Lookup(db.ledger, id));
  }

  // ---------------------------------------------------------------- claiming a delivery

  lemma {:induction false} EarliestExists(entries: Entries, ids: set<string>) returns (id: string)
    requires ids != {} && forall other | other in ids :: other in entries && entries[other].delivery.Some?
    ensures id in ids && forall other | other in ids :: DeliverNoLater(entries[id], entries[other])
    decreases |ids|
  {
    var one :| one in ids;
    var rest := ids - {one};
    if rest == {} {
      assert ids == {one};
      id := one;
    } else {
      var best := EarliestExists(entries, rest);
      id := if DeliverNoLater(entries[one], entries[best]) then one else best;
    }
  }

  /** If any delivery can be claimed, one is. */
  lemma SomeDeliveryIsFirst(entries: Entries, now: Time, candidate: string)
    requires candidate in entries && Deliverable(entries[candidate], now)
    ensures FirstDelivery(entries, now).Some?
  {
    var ids := set id | id in entries && Deliverable(entries[id], now);
    assert candidate in ids;
    var id := EarliestExists(entries, ids);
    assert IsFirstDelivery(entries, now, id);
  }

  /** Due, and no delivery that is due became available earlier. */
  ghost predicate DueSoonest(h: Store, now: Time, id: string) {
    && id in h.entries && Deliverable(h.entries[id], now)
    && forall other | other in h.entries && Deliverable(h.entries[other], now) ::
         h.entries[id].delivery.value.availableAt <= h.entries[other].delivery.value.availableAt
  }

  /** Of the deliveries due soonest, the one whose job was created first was finalized first. */
  ghost predicate TiesWereFinalizedInOrder(h: Store, now: Time) {
    forall id, other | DueSoonest(h, now, id) && DueSoonest(h, now, other) && id in h.turns && other in h.turns
        && (forall any | DueSoonest(h, now, any) :: h.entries[id].job.position <= h.entries[any].job.position) ::
      h.turns[id] <= h.turns[other]
  }

  lemma NextTurnIsUnique(h: Store, now: Time, id: string)
    requires TakesTurns(h) && IsNextTurn(h, now, id)
    ensures NextTurn(h, now) == Some(id)
  {
    var other := NextTurn(h, now).value;
    assert IsNextTurn(h, now, other);
    assert h.turns[id] == h.turns[other];
  }

  lemma FirstIsOldestOfSoonest(h: Store, now: Time, id: string)
    requires Positioned(h.entries) && IsFirstDelivery(h.entries, now, id)
    ensures DueSoonest(h, now, id)
    ensures forall other | DueSoonest(h, now, other) ::
              && h.entries[other].delivery.value.availableAt == h.entries[id].delivery.value.availableAt
              && h.entries[id].job.position <= h.entries[other].job.position
              && (h.entries[other].job.position <= h.entries[id].job.position ==> other == id)
  {
  }

  lemma InOrderIsNext(h: Store, now: Time, id: string)
    requires TakesTurns(h) && DueSoonest(h, now, id) && TiesWereFinalizedInOrder(h, now)
    requires forall other | DueSoonest(h, now, other) :: h.entries[id].job.position <= h.entries[other].job.position
    ensures IsNextTurn(h, now, id)
  {
    forall other | other in h.entries && Deliverable(h.entries[other], now) && other in h.turns
        && h.entries[other].delivery.value.availableAt == h.entries[id].delivery.value.availableAt
      ensures h.turns[id] <= h.turns[other]
    {
      assert DueSoonest(h, now, other);
    }
  }

  lemma NextIsInOrder(h: Store, now: Time, id: string)
    requires IsNextTurn(h, now, id) && DueSoonest(h, now, id)
    requires forall other | DueSoonest(h, now, other) :: h.entries[other].job.position <= h.entries[id].job.position ==> other == id
    ensures TiesWereFinalizedInOrder(h, now)
  {
  }

  lemma NothingIsDue(h: Store, now: Time)
    requires FirstDelivery(h.entries, now).None?
    ensures NextTurn(h, now).None? && TiesWereFinalizedInOrder(h, now)
  {
    if NextTurn(h, now).Some? {
      assert IsNextTurn(h, now, NextTurn(h, now).value);
      SomeDeliveryIsFirst(h.entries, now, NextTurn(h, now).value);
    }
    forall id | DueSoonest(h, now, id) ensures false {
      SomeDeliveryIsFirst(h.entries, now, id);
    }
  }

  /** The two orders pick the same delivery exactly when its ties were finalized in order. */
  lemma PicksAgreeExactlyInOrder(h: Store, now: Time)
    requires TakesTurns(h) && Positioned(h.entries)
    ensures NextTurn(h, now) == FirstDelivery(h.entries, now) <==> TiesWereFinalizedInOrder(h, now)
  {
    match FirstDelivery(h.entries, now) {
      case None =>
        NothingIsDue(h, now);
      case Some(id) =>
        assert IsFirstDelivery(h.entries, now, id);
        FirstIsOldestOfSoonest(h, now, id);
        hide Positioned, FirstDelivery, IsFirstDelivery, TiesWereFinalizedInOrder, TakesTurns, DueSoonest, Deliverable;
        if NextTurn(h, now) == Some(id) {
          assert IsNextTurn(h, now, id);
          NextIsInOrder(h, now, id);
        } else if TiesWereFinalizedInOrder(h, now) {
          InOrderIsNext(h, now, id);
          NextTurnIsUnique(h, now, id);
        }
    }
  }

  lemma ClaimingDeliveryKeepsMirrored(cfg: Config, h: Store, db: Db, id: string, now: Time, token: string)
    requires Mirrored(h, db) && id in h.entries && Numbered(h.entries[id].timeline) && h.entries[id].delivery.Some?
    ensures Mirrored(Put(h, id, ClaimDeliveryChange(cfg, h.entries[id], now, token)),
                     Write(db, id, ClaimDeliveryChange(cfg, h.entries[id], now, token)))
  {
    hide Numbered, Mirrored, Plain;
    SenderChangesArePlain(cfg, h.entries[id], token, now, "");
    PlainKeepsMirrored(h, db, id, ClaimDeliveryChange(cfg, h.entries[id], now, token));
  }

  /** The delivery store `claim_delivery` sorts. */
  ghost function Outbox(cfg: Config, h: Store, now: Time): Store {
    h.(entries := ReclaimDeliveriesByCount(cfg, h.entries, now))
  }

  lemma OutboxAgrees(cfg: Config, plan: Plan, h: Store, db: Db, issued: set<string>, now: Time)
    requires cfg.Valid() && GoodDb(cfg, plan, db, issued) && Mirrored(h, db)
    ensures var ready := db.(entries := ReclaimDeliveries(cfg, db.entries, now));
            && Mirrored(Outbox(cfg, h, now), ready)
            && GoodDb(cfg, plan, ready, issued)
            && Outbox(cfg, h, now).entries == ready.entries
  {
    hide GoodDb, Mirrored, Numbered, ReclaimDeliveries, ReclaimDeliveriesByCount;
    MirroredEntries(h, db);
    AllNumbered(cfg, plan, db, issued);
    ReclaimKeepsMirrored(cfg, h, db, now);
    ReclaimDeliveriesKeepsGood(cfg, plan, db, issued, now);
    MirroredEntries(Outbox(cfg, h, now), db.(entries := ReclaimDeliveries(cfg, db.entries, now)));
  }

  /** `claim_delivery` of the two control planes agrees exactly when the deliveries tied with
      SQLite's pick were finalized in the order their jobs were created. */
  lemma ClaimDeliveryAgreesExactlyInOrder(cfg: Config, plan: Plan, h: Store, db: Db, issued: set<string>, op: Op)
    requires cfg.Valid() && GoodDb(cfg, plan, db, issued) && Mirrored(h, db) && op.OpClaimDelivery?
    ensures Agrees(cfg, h, db, op) <==> TiesWereFinalizedInOrder(Outbox(cfg, h, op.now), op.now)
  {
    hide GoodDb, Mirrored, Agrees, TiesWereFinalizedInOrder, Numbered, NextTurn, FirstDelivery, ReclaimDeliveries, Outbox, TakesTurns;
    OutboxAgrees(cfg, plan, h, db, issued, op.now);
    OutboxIsWellFormed(cfg, plan, h, db, issued, op.now);
    PicksAgreeExactlyInOrder(Outbox(cfg, h, op.now), op.now);
    if NextTurn(Outbox(cfg, h, op.now), op.now) == FirstDelivery(Outbox(cfg, h, op.now).entries, op.now) {
      SamePickAgrees(cfg, h, db, op);
    } else {
      SaidByDeliveries(cfg, h, db, op);
      AgreementIsHeard(cfg, h, db, op);
    }
  }

  lemma OutboxIsWellFormed(cfg: Config, plan: Plan, h: Store, db: Db, issued: set<string>, now: Time)
    requires cfg.Valid() && GoodDb(cfg, plan, db, issued) && Mirrored(h, db)
    ensures TakesTurns(Outbox(cfg, h, now)) && Positioned(Outbox(cfg, h, now).entries)
    ensures forall id | id in Outbox(cfg, h, now).entries :: Numbered(Outbox(cfg, h, now).entries[id].timeline)
  {
    hide Numbered, TakesTurns, Outbox, ReclaimDeliveries, GoodEntry, Positioned, OneRunning, ExclusiveLab, UniqueRequests, AllIssued;
    OutboxAgrees(cfg, plan, h, db, issued, now);
    AllNumbered(cfg, plan, db.(entries := ReclaimDeliveries(cfg, db.entries, now)), issued);
  }

  lemma AgreementIsHeard(cfg: Config, h: Store, db: Db, op: Op)
    ensures Agrees(cfg, h, db, op) ==> Does(cfg, h, op).1 == SqliteSays(cfg, db, op)
  {
    hide Does, SqliteSays, Mirrored, DbAfter;
  }

  lemma SamePickAgrees(cfg: Config, h: Store, db: Db, op: Op)
    requires op.OpClaimDelivery?
    requires var ready := db.(entries := ReclaimDeliveries(cfg, db.entries, op.now));
             Mirrored(Outbox(cfg, h, op.now), ready) && Outbox(cfg, h, op.now).entries == ready.entries
    requires forall id | id in Outbox(cfg, h, op.now).entries :: Numbered(Outbox(cfg, h, op.now).entries[id].timeline)
    requires NextTurn(Outbox(cfg, h, op.now), op.now) == FirstDelivery(Outbox(cfg, h, op.now).entries, op.now)
    ensures Agrees(cfg, h, db, op)
  {
    hide Mirrored, Numbered, NextTurn, FirstDelivery, ReclaimDeliveries, ReclaimDeliveriesByCount, ClaimDeliveryChange, Put, Write;
    var left, ready := Outbox(cfg, h, op.now), db.(entries := ReclaimDeliveries(cfg, db.entries, op.now));
    match NextTurn(left, op.now) {
      case None =>
      case Some(id) =>
        PickedIsDeliverable(left, op.now, id);
        ClaimingDeliveryKeepsMirrored(cfg, left, ready, id, op.now, op.token);
    }
  }

  lemma PickedIsDeliverable(h: Store, now: Time, id: string)
    requires NextTurn(h, now) == Some(id)
    ensures id in h.entries && h.entries[id].delivery.Some?
  {
    assert IsNextTurn(h, now, id);
  }

  lemma FirstIsDeliverable(entries: Entries, now: Time, id: string)
    requires FirstDelivery(entries, now) == Some(id)
    ensures id in entries && entries[id].delivery.Some?
  {
    assert IsFirstDelivery(entries, now, id);
  }

  lemma SaidByDeliveries(cfg: Config, h: Store, db: Db, op: Op)
    requires op.OpClaimDelivery?
    ensures var said, out := Does(cfg, h, op).1, SqliteSays(cfg, db, op);
            && said.SaidDelivery? && out.SaidDelivery?
            && (said == out ==>
                  NextTurn(Outbox(cfg, h, op.now), op.now)
                  == FirstDelivery(ReclaimDeliveries(cfg, db.entries, op.now), op.now))
  {
    var left, right := Outbox(cfg, h, op.now), ReclaimDeliveries(cfg, db.entries, op.now);
    if NextTurn(left, op.now).Some? { PickedIsDeliverable(left, op.now, NextTurn(left, op.now).value); }
    if FirstDelivery(right, op.now).Some? { FirstIsDeliverable(right, op.now, FirstDelivery(right, op.now).value); }
    hide NextTurn, FirstDelivery, ReclaimDeliveries, ReclaimDeliveriesByCount, ClaimDeliveryChange, Put, Write;
  }

  // ---------------------------------------------------------------- lockstep

  /** Whenever a delivery is claimed along this run, the ties were finalized in order. */
  ghost predicate Comparable(cfg: Config, h: Store, ops: seq<Op>)
    decreases |ops|
  {
    ops != [] ==>
      && (ops[0].OpClaimDelivery? ==> TiesWereFinalizedInOrder(Outbox(cfg, h, ops[0].now), ops[0].now))
      && Comparable(cfg, Does(cfg, h, ops[0]).0, ops[1..])
  }

  ghost function HostedRun(cfg: Config, h: Store, ops: seq<Op>): (Store, seq<Said>)
    decreases |ops|
  {
    if ops == [] then (h, [])
    else
      var (h', said) := Does(cfg, h, ops[0]);
      var (end, rest) := HostedRun(cfg, h', ops[1..]);
      (end, [said] + rest)
  }

  /** Every answer the SQLite control plane gives along a run. */
  ghost function SqliteAnswers(cfg: Config, w: World, ops: seq<Op>): seq<Said>
    decreases |ops|
  {
    if ops == [] then [] else [SqliteSays(cfg, w.db, ops[0])] + SqliteAnswers(cfg, Step(cfg, w, ops[0]), ops[1..])
  }

  lemma OneStepAgrees(cfg: Config, plan: Plan, h: Store, w: World, op: Op)
    requires Good(cfg, plan, w) && Legal(plan, w, op) && Mirrored(h, w.db) && Shared(op)
    requires op.OpClaimDelivery? ==> TiesWereFinalizedInOrder(Outbox(cfg, h, op.now), op.now)
    ensures Agrees(cfg, h, w.db, op)
  {
    hide Good, GoodDb, Legal, Mirrored, UniqueRequests, Numbered, Agrees, TiesWereFinalizedInOrder, Outbox;
    GoodUnpacked(cfg, plan, w, op);
    MirroredEntries(h, w.db);
    AllNumbered(cfg, plan, w.db, w.issued);
    RequestsAreUnique(cfg, plan, w.db, w.issued);
    match op {
      case OpCreate(_, _, _, _) => CreateAgrees(cfg, h, w.db, op);
      case OpDecide(_, _, _) => DecideAgrees(cfg, plan, h, w.db, w.issued, op);
      case OpClaimNext(_, _) => ClaimNextAgrees(cfg, plan, h, w.db, w.issued, op);
      case OpFinalize(_, _, _, _, _) => FinalizeAgrees(cfg, plan, h, w.db, w.issued, op);
      case OpClaimDelivery(_, _) => ClaimDeliveryAgreesExactlyInOrder(cfg, plan, h, w.db, w.issued, op);
      case OpResume(_, _) => ResumingAgrees(cfg, h, w.db, op);
      case _ =>
        if op.OpRenew? || op.OpReserve? || op.OpPause? || op.OpRequeue? || op.OpRetry? {
          WorkerOperationsAgree(cfg, h, w.db, op);
        } else {
          if op.OpDelivered? || op.OpRenewDelivery? { SendingAgrees(cfg, h, w.db, op); } else { ReturningAgrees(cfg, h, w.db, op); }
        }
    }
  }

  lemma RequestsAreUnique(cfg: Config, plan: Plan, db: Db, issued: set<string>)
    requires GoodDb(cfg, plan, db, issued)
    ensures UniqueRequests(db.entries)
  {
    hide GoodEntry, UniqueRequests, Positioned, OneRunning, ExclusiveLab, AllIssued, GoodLedger;
  }

  lemma ResumingAgrees(cfg: Config, h: Store, db: Db, op: Op)
    requires op.OpResume? && Mirrored(h, db)
    ensures Agrees(cfg, h, db, op)
  {
    hide Mirrored;
  }

  /** Out of order, the two control planes hand out different deliveries. */
  lemma DisorderIsHeard(cfg: Config, plan: Plan, h: Store, w: World, op: Op)
    requires Good(cfg, plan, w) && Legal(plan, w, op) && Mirrored(h, w.db) && op.OpClaimDelivery?
    requires !TiesWereFinalizedInOrder(Outbox(cfg, h, op.now), op.now)
    ensures Does(cfg, h, op).1 != SqliteSays(cfg, w.db, op)
  {
    hide Good, GoodDb, Legal, Mirrored, TiesWereFinalizedInOrder, NextTurn, FirstDelivery, ReclaimDeliveries, Outbox, TakesTurns,
      Does, SqliteSays;
    GoodUnpacked(cfg, plan, w, op);
    OutboxAgrees(cfg, plan, h, w.db, w.issued, op.now);
    OutboxIsWellFormed(cfg, plan, h, w.db, w.issued, op.now);
    PicksAgreeExactlyInOrder(Outbox(cfg, h, op.now), op.now);
    SaidByDeliveries(cfg, h, w.db, op);
  }

  /** Fed the same operations, the hosted control plane gives the same answers as the SQLite one - the
      same job and the same delivery claimed, with the same ordinals - if and only if whenever a
      delivery is claimed the ties were finalized in order; and then the two hold the same rows. */
  lemma {:induction false} Lockstep(cfg: Config, plan: Plan, h: Store, w: World, ops: seq<Op>)
    requires Good(cfg, plan, w) && LegalRun(cfg, plan, w, ops) && Mirrored(h, w.db) && forall op | op in ops :: Shared(op)
    ensures HostedRun(cfg, h, ops).1 == SqliteAnswers(cfg, w, ops) <==> Comparable(cfg, h, ops)
    ensures Comparable(cfg, h, ops) ==> Mirrored(HostedRun(cfg, h, ops).0, Run(cfg, w, ops).db)
    decreases |ops|
  {
    hide Good, Legal, Mirrored, Does, SqliteSays, TiesWereFinalizedInOrder, DbAfter, Granted;
    if ops != [] {
      assert ops[0] in ops && forall op | op in ops[1..] :: op in ops;
      FirstAnswers(cfg, h, w, ops);
      if ops[0].OpClaimDelivery? && !TiesWereFinalizedInOrder(Outbox(cfg, h, ops[0].now), ops[0].now) {
        DisorderIsHeard(cfg, plan, h, w, ops[0]);
      } else {
        OneStepAgrees(cfg, plan, h, w, ops[0]);
        StepKeepsGood(cfg, plan, w, ops[0]);
        assert Step(cfg, w, ops[0]).db == DbAfter(cfg, w.db, ops[0]);
        Lockstep(cfg, plan, Does(cfg, h, ops[0]).0, Step(cfg, w, ops[0]), ops[1..]);
      }
    }
  }

  lemma FirstAnswers(cfg: Config, h: Store, w: World, ops: seq<Op>)
    requires ops != []
    ensures var said, out := HostedRun(cfg, h, ops).1, SqliteAnswers(cfg, w, ops);
            said == out <==>
              && Does(cfg, h, ops[0]).1 == SqliteSays(cfg, w.db, ops[0])
              && HostedRun(cfg, Does(cfg, h, ops[0]).0, ops[1..]).1 == SqliteAnswers(cfg, Step(cfg, w, ops[0]), ops[1..])
  {
    hide Does, SqliteSays, Step;
    var said, out := HostedRun(cfg, h, ops).1, SqliteAnswers(cfg, w, ops);
    assert said[0] == Does(cfg, h, ops[0]).1 && out[0] == SqliteSays(cfg, w.db, ops[0]);
    assert said[1..] == HostedRun(cfg, Does(cfg, h, ops[0]).0, ops[1..]).1;
    assert out[1..] == SqliteAnswers(cfg, Step(cfg, w, ops[0]), ops[1..]);
  }

  // ---------------------------------------------------------------- when nobody overtakes

  /** Jobs took their turns in the order they were created. */
  ghost predicate TurnsInOrder(h: Store) {
    forall a, b | a in h.turns && b in h.turns && a in h.entries && b in h.entries
        && h.entries[a].job.position < h.entries[b].job.position ::
      h.turns[a] < h.turns[b]
  }

  /** No job is finalized after one that was created later. */
  ghost predicate NobodyOvertaken(cfg: Config, h: Store, ops: seq<Op>)
    decreases |ops|
  {
    ops != [] ==> !Overtaken(h, ops[0]) && NobodyOvertaken(cfg, Does(cfg, h, ops[0]).0, ops[1..])
  }

  ghost predicate Overtaken(h: Store, op: Op) {
    op.OpFinalize? && op.id in h.entries
    && exists other :: other in h.turns && other in h.entries && h.entries[other].job.position > h.entries[op.id].job.position
  }

  lemma InOrderHasNoBadTies(h: Store, now: Time)
    requires TurnsInOrder(h) && Positioned(h.entries)
    ensures TiesWereFinalizedInOrder(h, now)
  {
    forall id, other | DueSoonest(h, now, id) && DueSoonest(h, now, other) && id in h.turns && other in h.turns
        && (forall any | DueSoonest(h, now, any) :: h.entries[id].job.position <= h.entries[any].job.position)
      ensures h.turns[id] <= h.turns[other]
    {
      assert h.entries[id].job.position <= h.entries[other].job.position;
    }
  }

  lemma TurnsComeFromFinalizing(cfg: Config, h: Store, op: Op)
    ensures var turns := Does(cfg, h, op).0.turns;
            turns == h.turns || (op.OpFinalize? && op.id in h.entries && turns == h.turns[op.id := |h.turns|])
  {
    hide ReclaimByCount, ReclaimDeliveriesByCount, Choose, NextTurn, FinalizeChange, Positioned;
  }

  lemma PositionsStay(cfg: Config, plan: Plan, h: Store, w: World, op: Op)
    requires Good(cfg, plan, w) && Legal(plan, w, op) && Mirrored(h, w.db) && Mirrored(Does(cfg, h, op).0, DbAfter(cfg, w.db, op))
    ensures var after := Does(cfg, h, op).0.entries;
            forall id | id in h.entries :: id in after && after[id].job.position == h.entries[id].job.position
  {
    StepIsLater(cfg, plan, w, op);
    MirroredEntries(h, w.db);
    MirroredEntries(Does(cfg, h, op).0, DbAfter(cfg, w.db, op));
    hide Good, Legal, Mirrored, DbAfter, Does, Granted;
    forall id | id in h.entries ensures SameIdentity(h.entries[id].job, Step(cfg, w, op).db.entries[id].job) {
      assert Evolves(w.db.entries[id], Step(cfg, w, op).db.entries[id], Step(cfg, w, op).issued - w.issued);
    }
  }

  lemma TakingTurnsInOrder(h: Store, h': Store, op: Op)
    requires TakesTurns(h) && TurnsInOrder(h) && !Overtaken(h, op)
    requires forall id | id in h.entries :: id in h'.entries && h'.entries[id].job.position == h.entries[id].job.position
    requires h'.turns == h.turns || (op.OpFinalize? && op.id in h.entries && h'.turns == h.turns[op.id := |h.turns|])
    ensures TurnsInOrder(h')
  {
  }

  lemma StepKeepsTurnsInOrder(cfg: Config, plan: Plan, h: Store, w: World, op: Op)
    requires Good(cfg, plan, w) && Legal(plan, w, op) && Mirrored(h, w.db) && Mirrored(Does(cfg, h, op).0, DbAfter(cfg, w.db, op))
    requires TurnsInOrder(h) && !Overtaken(h, op)
    ensures TurnsInOrder(Does(cfg, h, op).0)
  {
    assert TakesTurns(h);
    hide Good, Legal, Mirrored, DbAfter, Does, TurnsInOrder, Overtaken, TakesTurns;
    PositionsStay(cfg, plan, h, w, op);
    TurnsComeFromFinalizing(cfg, h, op);
    TakingTurnsInOrder(h, Does(cfg, h, op).0, op);
  }

  lemma OutboxKeepsTurnsInOrder(cfg: Config, h: Store, now: Time)
    requires TurnsInOrder(h)
    ensures TurnsInOrder(Outbox(cfg, h, now))
  {
    hide ReclaimDeliveryChange;
    assert forall id | id in h.entries ::
      ReclaimDeliveryChange(cfg, h.entries[id], now).job.position == h.entries[id].job.position by { ReclaimingKeepsPositions(cfg, h, now); }
  }

  lemma ReclaimingKeepsPositions(cfg: Config, h: Store, now: Time)
    ensures forall id | id in h.entries :: ReclaimDeliveryChange(cfg, h.entries[id], now).job.position == h.entries[id].job.position
  {
  }

  /** If jobs are finalized in the order they were created, the two control planes never differ. */
  lemma {:induction false} FinalizedInOrderNeverDiffers(cfg: Config, plan: Plan, h: Store, w: World, ops: seq<Op>)
    requires Good(cfg, plan, w) && LegalRun(cfg, plan, w, ops) && Mirrored(h, w.db) && forall op | op in ops :: Shared(op)
    requires TurnsInOrder(h) && NobodyOvertaken(cfg, h, ops)
    ensures Comparable(cfg, h, ops)
    decreases |ops|
  {
    hide Good, Legal, Mirrored, Does, SqliteSays, TiesWereFinalizedInOrder, DbAfter, Granted, TurnsInOrder, Overtaken, Outbox;
    if ops != [] {
      var op := ops[0];
      assert op in ops && forall other | other in ops[1..] :: other in ops;
      if op.OpClaimDelivery? {
        GoodUnpacked(cfg, plan, w, op);
        OutboxIsWellFormed(cfg, plan, h, w.db, w.issued, op.now);
        OutboxKeepsTurnsInOrder(cfg, h, op.now);
        InOrderHasNoBadTies(Outbox(cfg, h, op.now), op.now);
      }
      OneStepAgrees(cfg, plan, h, w, op);
      StepKeepsGood(cfg, plan, w, op);
      StepKeepsTurnsInOrder(cfg, plan, h, w, op);
      assert Step(cfg, w, op).db == DbAfter(cfg, w.db, op);
      FinalizedInOrderNeverDiffers(cfg, plan, Does(cfg, h, op).0, Step(cfg, w, op), ops[1..]);
    }
  }
}

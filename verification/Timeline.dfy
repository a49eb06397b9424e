/** The owner-visible timeline as an audit log: folding a job's events reproduces the row they
    describe, so the row can never say something its timeline does not. */
module Timeline {
  import opened Wrappers
  import opened Decisions
  import opened ControlPlane

  datatype Outbox = Outbox(attempts: nat, failed: bool, sent: bool)

  datatype Audit = Audit(
    status: Status,
    attempts: nat,
    failed: bool,
    checkpoint: Option<string>,
    incident: Option<string>,
    decided: Option<(string, Verdict)>,
    outbox: Option<Outbox>)

  /** What an auditor who reads one more event concludes; None when it cannot follow. */
  function Observe(cfg: Config, a: Audit, ev: Event): Option<Audit> {
    match ev
    case InvestigationQueued => None
    case InvestigationStarted =>
      if a.status == Queued && !a.failed then Some(a.(status := Running)) else None
    case ScenarioReserved(incident) =>
      if a.status == Running && a.incident.None? then Some(a.(incident := Some(incident))) else None
    case LeaseExpired(n, _) => Setback(cfg, a, n)
    case RetryScheduled(n, _) => Setback(cfg, a, n)
    case InvestigationFailed(n) =>
      if a.status == Running && n == a.attempts + 1 >= cfg.maxReplay then
        Some(a.(status := Queued, attempts := n, failed := true))
      else None
    case DecisionRequested(checkpoint) =>
      if a.status == Running then Some(a.(status := PausedApproval, checkpoint := Some(checkpoint))) else None
    case DecisionRecorded(checkpoint, verdict) =>
      if a.status == PausedApproval && a.checkpoint == Some(checkpoint) && a.decided.None? then
        Some(a.(status := Queued, decided := Some((checkpoint, verdict))))
      else None
    case InvestigationRequeued =>
      if a.status == Running then Some(a.(status := Queued)) else None
    case ReportFinalized =>
      if a.status == Running && a.outbox.None? then
        Some(a.(status := Completed, outbox := Some(Outbox(0, false, false))))
      else None
    case DeliveryLeaseExpired(n, _) => Bounce(cfg, a, n)
    case DeliveryRetryScheduled(n, _) => Bounce(cfg, a, n)
    case DeliveryFailed(n) =>
      if Outgoing(a) && n == a.outbox.value.attempts + 1 >= cfg.maxDelivery then
        Some(a.(outbox := Some(a.outbox.value.(attempts := n, failed := true))))
      else None
    case DeliveryRequeued =>
      if Outgoing(a) then Some(a) else None
    case ReportDelivered =>
      if Outgoing(a) then Some(a.(outbox := Some(a.outbox.value.(sent := true)))) else None
  }

  function Setback(cfg: Config, a: Audit, n: nat): Option<Audit> {
    if a.status == Running && n == a.attempts + 1 < cfg.maxReplay then Some(a.(status := Queued, attempts := n)) else None
  }

  predicate Outgoing(a: Audit) {
    a.status == Completed && a.outbox.Some? && !a.outbox.value.failed && !a.outbox.value.sent
  }

  function Bounce(cfg: Config, a: Audit, n: nat): Option<Audit> {
    if Outgoing(a) && n == a.outbox.value.attempts + 1 < cfg.maxDelivery then
      Some(a.(outbox := Some(a.outbox.value.(attempts := n))))
    else None
  }

  function Replay(cfg: Config, rows: seq<EventRow>): Option<Audit> {
    if rows == [] then None
    else if |rows| == 1 then
      if rows[0].event == InvestigationQueued then Some(Audit(Queued, 0, false, None, None, None, None)) else None
    else
      var before := Replay(cfg, rows[..|rows| - 1]);
      if before.None? then None else Observe(cfg, before.value, rows[|rows| - 1].event)
  }

  function AuditOf(e: Entry): Audit {
    Audit(
      e.job.status, e.job.attempts, e.job.failure.Some?, e.job.checkpoint, e.job.incident,
      if e.mirror.Some? then Some((e.mirror.value.checkpoint, e.mirror.value.decision.verdict)) else None,
      if e.delivery.Some? then
        Some(Outbox(e.delivery.value.attempts, e.delivery.value.failure.Some?, e.delivery.value.status == Sent))
      else None)
  }

  ghost predicate Numbered(rows: seq<EventRow>) {
    forall i | 0 <= i < |rows| :: rows[i].ordinal == i
  }

  /** In a gap-free timeline the largest ordinal plus one is the number of events. */
  lemma {:induction false} NextOrdinalIsCount(rows: seq<EventRow>)
    requires Numbered(rows)
    ensures NextOrdinal(rows) == |rows|
  {
    if rows != [] {
      NextOrdinalIsCount(rows[..|rows| - 1]);
    }
  }

  /** The timeline is gap-free and folds to exactly the row. */
  ghost predicate Faithful(cfg: Config, e: Entry) {
    && Numbered(e.timeline)
    && e.timeline != []
    && Replay(cfg, e.timeline) == Some(AuditOf(e))
  }

  /** The event written with a change is the one an auditor needs to follow it. */
  ghost predicate Explained(cfg: Config, e: Entry, c: Change) {
    var after := AuditOf(Commit(e, c));
    if c.event.None? then after == AuditOf(e) else Observe(cfg, AuditOf(e), c.event.value) == Some(after)
  }

  lemma ExplainedChangeStaysFaithful(cfg: Config, e: Entry, c: Change)
    requires Faithful(cfg, e) && Explained(cfg, e, c)
    ensures Faithful(cfg, Commit(e, c))
  {
    if c.event.Some? {
      NextOrdinalIsCount(e.timeline);
      var rows := Append(e.timeline, c.event);
      assert rows[..|rows| - 1] == e.timeline;
    }
  }

  // ---------------------------------------------------------------- counting claims

  datatype Kind = Start | Setbacks | Pauses | Finals | Requeues | Other

  function KindOf(ev: Event): Kind {
    match ev
    case InvestigationStarted => Start
    case LeaseExpired(_, _) => Setbacks
    case RetryScheduled(_, _) => Setbacks
    case InvestigationFailed(_) => Setbacks
    case DecisionRequested(_) => Pauses
    case ReportFinalized => Finals
    case InvestigationRequeued => Requeues
    case _ => Other
  }

  function Count(rows: seq<EventRow>, kind: Kind): nat {
    if rows == [] then 0
    else Count(rows[..|rows| - 1], kind) + if KindOf(rows[|rows| - 1].event) == kind then 1 else 0
  }

  /** Every claim a worker ever got is accounted for: it ended in a counted setback, a pause, a
      finished report or an explicit requeue, or it is the one still running. Setbacks are
      bounded, and the bound is reached exactly when the job has failed. */
  lemma {:induction false} ClaimsAreConserved(cfg: Config, rows: seq<EventRow>)
    requires cfg.maxReplay > 0 && Replay(cfg, rows).Some?
    ensures var a := Replay(cfg, rows).value;
            && a.attempts == Count(rows, Setbacks) <= cfg.maxReplay
            && (a.attempts == cfg.maxReplay <==> a.failed)
            && (a.failed ==> a.status == Queued)
            && Count(rows, Finals) == (if a.status == Completed then 1 else 0)
            && Count(rows, Start) == a.attempts + Count(rows, Pauses) + Count(rows, Finals) + Count(rows, Requeues)
                                     + (if a.status == Running then 1 else 0)
            && Count(rows, Start) <= cfg.maxReplay + Count(rows, Pauses) + Count(rows, Requeues)
  {
    if |rows| == 1 {
      assert rows[..0] == [];
      assert forall k :: Count(rows, k) == Count([], k) + if KindOf(rows[0].event) == k then 1 else 0;
    } else {
      ClaimsAreConserved(cfg, rows[..|rows| - 1]);
    }
  }

  /** `investigation_failed` closes a timeline. */
  lemma {:induction false} NothingFollowsFailure(cfg: Config, rows: seq<EventRow>, i: nat)
    requires cfg.maxReplay > 0 && Replay(cfg, rows).Some?
    requires i < |rows| && rows[i].event.InvestigationFailed?
    ensures i == |rows| - 1
  {
    if |rows| > 1 && i < |rows| - 1 {
      var before := rows[..|rows| - 1];
      NothingFollowsFailure(cfg, before, i);
      ClaimsAreConserved(cfg, before);
      FailureIsLast(cfg, before);
    }
  }

  lemma FailureIsLast(cfg: Config, rows: seq<EventRow>)
    requires |rows| > 0 && Replay(cfg, rows).Some? && rows[|rows| - 1].event.InvestigationFailed?
    ensures Replay(cfg, rows).value.failed && Replay(cfg, rows).value.status == Queued
  {
  }
}

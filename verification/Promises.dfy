/** What single operations promise their callers, on the columns an owner, a worker or an operator
    can see: leases, backoff, hand-backs, submission and who may look. */
module Promises {
  import opened Wrappers
  import opened Text
  import opened Decisions
  import opened ControlPlane

  // ---------------------------------------------------------------- backoff

  function Smaller(x: Time, y: Time): Time {
    if x < y then x else y
  }

  lemma {:induction false} PowersGrow(n: nat)
    ensures Pow2(n) >= 1.0
  {
    if n > 0 { PowersGrow(n - 1); }
  }

  lemma Twice(x: real, y: real)
    ensures x * (2.0 * y) == 2.0 * (x * y)
    ensures y >= 1.0 && x > 0.0 ==> x * y >= x
  {
    if y >= 1.0 && x > 0.0 { assert x * y - x == x * (y - 1.0); }
  }

  lemma DelayDoubles(cfg: Config, attempt: nat)
    requires cfg.Valid() && attempt > 0
    ensures RetryDelay(cfg, attempt + 1) == Smaller(2.0 * RetryDelay(cfg, attempt), 3600.0)
    ensures 0.0 < RetryDelay(cfg, attempt) <= RetryDelay(cfg, attempt + 1) <= 3600.0
  {
    PowersGrow(attempt - 1);
    var power := Pow2(attempt - 1);
    assert Pow2(attempt) == 2.0 * power;
    Twice(cfg.retryBase, power);
  }

  /** The first delay is the configured base, each next one is twice the last, and none is longer than
      an hour. */
  lemma BackoffDoublesUpToTheCap(cfg: Config, attempt: nat)
    requires cfg.Valid() && attempt > 0
    ensures RetryDelay(cfg, 1) == Smaller(cfg.retryBase, 3600.0)
    ensures RetryDelay(cfg, attempt + 1) == Smaller(2.0 * RetryDelay(cfg, attempt), 3600.0)
    ensures 0.0 < RetryDelay(cfg, attempt) <= RetryDelay(cfg, attempt + 1) <= 3600.0
  {
    DelayDoubles(cfg, attempt);
    assert Pow2(0) == 1.0;
  }

  /** What one more failed attempt makes of a job: queued again behind its delay, or failed. */
  ghost predicate SetBack(cfg: Config, e: Entry, e': Entry, now: Time, error: string) {
    var before, after := e.job, e'.job;
    && after.attempts == before.attempts + 1
    && after.status == Queued && after.token.None? && after.expiresAt.None?
    && after == before.(status := Queued, token := None, expiresAt := None, attempts := after.attempts,
                        availableAt := after.availableAt, failure := after.failure)
    && e'.mirror == e.mirror && e'.delivery == e.delivery
    && |e'.timeline| == |e.timeline| + 1 && e.timeline <= e'.timeline
    && if after.attempts < cfg.maxReplay then
         && after.failure == before.failure && after.availableAt == now + RetryDelay(cfg, after.attempts)
         && (e'.timeline[|e.timeline|].event == LeaseExpired(after.attempts, after.availableAt)
             || e'.timeline[|e.timeline|].event == RetryScheduled(after.attempts, after.availableAt))
       else
         after.failure == Some("retry_limit:" + error) && after.availableAt == before.availableAt
         && e'.timeline[|e.timeline|].event == InvestigationFailed(after.attempts)
  }

  /** Handing a claim back after an error is a setback, and says whether the job will be retried;
      nothing but holding the claim is asked for. */
  lemma RetrySetsBack(cfg: Config, db: Db, id: string, token: string, now: Time, error: string)
    requires id in db.entries
    ensures var e, r := db.entries[id], Retry(cfg, db, id, token, now, error);
            && (r.Ok? <==> e.job.status == Running && e.job.token == Some(token))
            && (!r.Ok? ==> r == Conflict)
            && (r.Ok? ==>
                  var e' := r.value.0.entries[id];
                  && SetBack(cfg, e, e', now, error) && (r.value.1 <==> e'.job.failure == e.job.failure && e'.job.attempts < cfg.maxReplay)
                  && r.value.0 == db.(entries := db.entries[id := e']))
  {
    hide NextOrdinal, RetryDelay;
  }

  /** A lease that has run out is a setback, and no other row is touched. */
  lemma ExpiryExactlySetsBack(cfg: Config, entries: Entries, now: Time, id: string)
    requires id in entries
    ensures var e, e' := entries[id], ReclaimAll(cfg, entries, now)[id];
            if e.job.status == Running && e.job.expiresAt.Some? && e.job.expiresAt.value <= now then
              SetBack(cfg, e, e', now, "lease_expired")
            else e' == e
  {
    hide NextOrdinal, RetryDelay;
  }

  // ---------------------------------------------------------------- leases

  /** The claim a job was started with: good for every operation for exactly the lease. */
  lemma ClaimLastsItsLease(cfg: Config, db: Db, id: string, now: Time, token: string, at: Time)
    requires id in db.entries && db.entries[id].job.status == Queued
    ensures var started := Write(db, id, ClaimChange(cfg, db.entries[id], now, token));
            && (Renew(cfg, started, id, token, at).Ok? <==> at < now + cfg.lease)
            && (Reserve(started, id, token, at).Ok? <==> at < now + cfg.lease)
            && (ReclaimAll(cfg, started.entries, at)[id] == started.entries[id] <==> at < now + cfg.lease)
            && Requeue(started, id, token).Ok?
  {
    hide RetryDelay, NextOrdinal;
    AppendGrows(db.entries[id].timeline);
    AppendGrows(Commit(db.entries[id], ClaimChange(cfg, db.entries[id], now, token)).timeline);
  }

  lemma AppendGrows(rows: seq<EventRow>)
    ensures forall event :: Append(rows, Some(event)) != rows
  {
    forall event ensures Append(rows, Some(event)) != rows {
      assert |Append(rows, Some(event))| == |rows| + 1;
    }
  }

  /** Whose job it is, of which kind, and what it has reserved and where it paused. */
  ghost predicate SameJob(a: Job, b: Job) {
    a.owner == b.owner && a.family == b.family && a.incident == b.incident && a.checkpoint == b.checkpoint
  }

  lemma PreparingKeepsTheJob(cfg: Config, db: Db, now: Time, id: string)
    requires id in db.entries && Reconcilable(db.(entries := ReclaimAll(cfg, db.entries, now)))
    ensures var ready := ReconcileAll(db.(entries := ReclaimAll(cfg, db.entries, now)));
            id in ready && SameJob(ready[id].job, db.entries[id].job)
  {
    var reclaimed := db.(entries := ReclaimAll(cfg, db.entries, now));
    hide NextOrdinal, RetryDelay;
    assert SameJob(reclaimed.entries[id].job, db.entries[id].job);
    assert ReconcileChange(reclaimed.entries[id], Lookup(db.ledger, id)).Ok?;
  }

  /** The claim in a worker's hands and the row it was made from. */
  ghost predicate Handed(cfg: Config, c: WorkerClaim, e: Entry, now: Time) {
    && e.job.status == Running && e.job.token == Some(c.token) && e.job.expiresAt == Some(now + cfg.lease)
    && c.owner == e.job.owner && c.family == e.job.family && c.checkpoint == e.job.checkpoint && c.incident == e.job.incident
    && (c.decision.Some? <==> e.mirror.Some?)
    && (e.mirror.Some? ==> c.decision.value == e.mirror.value.decision && c.checkpoint == Some(e.mirror.value.checkpoint))
  }

  lemma TheChosenIsHanded(cfg: Config, db: Db, now: Time, token: string)
    requires Reconcilable(db.(entries := ReclaimAll(cfg, db.entries, now)))
    ensures var ready := ReconcileAll(db.(entries := ReclaimAll(cfg, db.entries, now)));
            var r := ClaimNext(cfg, db, now, token);
            r.Ok? && r.value.1.Some? ==>
              var c, after := r.value.1.value, r.value.0.entries;
              && c.id in ready && c.id in after && c.token == token
              && Handed(cfg, c, after[c.id], now) && SameJob(after[c.id].job, ready[c.id].job)
  {
    hide NextOrdinal, RetryDelay, NoLater, ReconcileAll, ReclaimAll, Reconcilable, AnyRunning, Deferred;
    var ready := ReconcileAll(db.(entries := ReclaimAll(cfg, db.entries, now)));
    if Choose(ready, now).Some? { assert IsFirst(ready, now, Choose(ready, now).value); }
  }

  /** What a worker is handed is what the row says: whose job it is and of which kind, its scenario, its
      checkpoint with the decision mirrored for it, and the new token; the row is as it was, but for the
      claim. */
  lemma ClaimsCarryTheRow(cfg: Config, db: Db, now: Time, token: string)
    ensures var r := ClaimNext(cfg, db, now, token);
            r.Ok? && r.value.1.Some? ==>
              var c, after := r.value.1.value, r.value.0.entries;
              && c.id in db.entries && c.id in after && c.token == token
              && Handed(cfg, c, after[c.id], now) && SameJob(after[c.id].job, db.entries[c.id].job)
  {
    hide ReconcileAll, ReclaimAll, Handed, Choose;
    var reclaimed := db.(entries := ReclaimAll(cfg, db.entries, now));
    if Reconcilable(reclaimed) {
      hide Reconcilable;
      TheChosenIsHanded(cfg, db, now, token);
      var r := ClaimNext(cfg, db, now, token);
      if r.Ok? && r.value.1.Some? {
        SameIds(cfg, db, now);
        hide ClaimNext;
        PreparingKeepsTheJob(cfg, db, now, r.value.1.value.id);
      }
    }
  }

  lemma SameIds(cfg: Config, db: Db, now: Time)
    requires Reconcilable(db.(entries := ReclaimAll(cfg, db.entries, now)))
    ensures ReconcileAll(db.(entries := ReclaimAll(cfg, db.entries, now))).Keys == db.entries.Keys
  {
    hide Commit, ReclaimChange, ReconcileChange;
  }

  /** Renewing starts the lease afresh and changes nothing else. */
  lemma RenewalStartsTheLeaseAfresh(cfg: Config, db: Db, id: string, token: string, now: Time, at: Time)
    requires id in db.entries
    ensures var e, r := db.entries[id], Renew(cfg, db, id, token, now);
            && (r.Ok? <==> e.job.status == Running && e.job.token == Some(token) && e.job.expiresAt.Some? && now < e.job.expiresAt.value)
            && (r.Ok? ==>
                  && r.value.0 == db.(entries := db.entries[id := e.(job := e.job.(expiresAt := Some(now + cfg.lease)))])
                  && (Renew(cfg, r.value.0, id, token, at).Ok? <==> at < now + cfg.lease))
  {
  }

  /** Giving a claim back on purpose costs nothing: the job is as it was before it was claimed, but
      for what it reserved, and can be claimed again at once. */
  lemma RequeueCostsNothing(cfg: Config, db: Db, id: string, now: Time, token: string)
    requires id in db.entries && Claimable(db.entries[id].job, now)
    requires db.entries[id].job.token.None? && db.entries[id].job.expiresAt.None?
    ensures var started := Write(db, id, ClaimChange(cfg, db.entries[id], now, token));
            var r := Requeue(started, id, token);
            && r.Ok? && r.value.0.entries[id].job == db.entries[id].job
            && r.value.0.ledger == db.ledger && Claimable(r.value.0.entries[id].job, now)
  {
    hide NextOrdinal;
  }

  /** A scenario is reserved once; asking again answers the same and writes nothing. */
  lemma ReservingTwice(db: Db, id: string, token: string, now: Time)
    requires id in db.entries
    ensures var r := Reserve(db, id, token, now);
            r.Ok? ==>
              && r.value.0.entries[id].job.incident == Some(r.value.1)
              && (db.entries[id].job.incident.Some? ==> r.value.1 == db.entries[id].job.incident.value && r.value.0 == db)
              && Reserve(r.value.0, id, token, now) == Ok((r.value.0, r.value.1))
  {
    hide NextOrdinal;
    assert forall e: Entry :: Commit(e, Keep(e)) == e;
    var r := Reserve(db, id, token, now);
    if r.Ok? {
      assert db.entries[id := db.entries[id]] == db.entries;
      var db' := r.value.0;
      assert db'.entries[id := db'.entries[id]] == db'.entries;
    }
  }

  // ---------------------------------------------------------------- deliveries

  /** What one more failed delivery makes of it. */
  ghost predicate DeliverySetBack(cfg: Config, e: Entry, e': Entry, now: Time, error: string)
    requires e.delivery.Some? && e'.delivery.Some?
  {
    var before, after := e.delivery.value, e'.delivery.value;
    && after.attempts == before.attempts + 1
    && after.status == Pending && after.token.None? && after.expiresAt.None? && after.destination == before.destination
    && e'.job == e.job && e'.mirror == e.mirror
    && |e'.timeline| == |e.timeline| + 1 && e.timeline <= e'.timeline
    && if after.attempts < cfg.maxDelivery then
         && after.failure == before.failure && after.availableAt == now + RetryDelay(cfg, after.attempts)
         && (e'.timeline[|e.timeline|].event == DeliveryLeaseExpired(after.attempts, after.availableAt)
             || e'.timeline[|e.timeline|].event == DeliveryRetryScheduled(after.attempts, after.availableAt))
       else
         after.failure == Some("retry_limit:" + error) && after.availableAt == before.availableAt
         && e'.timeline[|e.timeline|].event == DeliveryFailed(after.attempts)
  }

  lemma DeliveryRetrySetsBack(cfg: Config, db: Db, id: string, token: string, now: Time, error: string)
    requires id in db.entries && db.entries[id].delivery.Some?
    ensures var e, r := db.entries[id], RetryDelivery(cfg, db, id, token, now, error);
            var d := e.delivery.value;
            && (r.Ok? <==> d.status == Sending && d.token == Some(token))
            && (r.Ok? ==>
                  var e' := r.value.0.entries[id];
                  && e'.delivery.Some? && DeliverySetBack(cfg, e, e', now, error)
                  && (r.value.1 <==> e'.delivery.value.attempts < cfg.maxDelivery)
                  && r.value.0 == db.(entries := db.entries[id := e']))
  {
    hide NextOrdinal, RetryDelay;
  }

  lemma DeliveryExpiryExactlySetsBack(cfg: Config, entries: Entries, now: Time, id: string)
    requires id in entries && entries[id].delivery.Some?
    ensures var e, e' := entries[id], ReclaimDeliveries(cfg, entries, now)[id];
            var d := e.delivery.value;
            if d.status == Sending && d.expiresAt.Some? && d.expiresAt.value <= now then
              e'.delivery.Some? && DeliverySetBack(cfg, e, e', now, "lease_expired")
            else e' == e
  {
    hide NextOrdinal, RetryDelay;
  }

  /** A delivery claim carries what the job holds and where it goes, and is good for exactly the lease. */
  lemma DeliveryClaimLastsItsLease(cfg: Config, db: Db, now: Time, token: string, at: Time)
    ensures var r := ClaimDelivery(cfg, db, now, token);
            && r.Ok?
            && (r.value.1.Some? ==>
                  var c := r.value.1.value;
                  && c.id in r.value.0.entries && c.token == token
                  && var e := r.value.0.entries[c.id];
                     && e.delivery.Some? && c.destination == e.delivery.value.destination
                     && c.artifact == e.job.artifact && c.content == e.job.content && c.digest == e.job.digest
                     && (MarkDelivered(r.value.0, c.id, token, at).Ok? <==> at < now + cfg.lease)
                     && (RenewDelivery(cfg, r.value.0, c.id, token, at).Ok? <==> at < now + cfg.lease)
                     && ReleaseDelivery(r.value.0, c.id, token).Ok?)
  {
    hide NextOrdinal, RetryDelay, DeliverNoLater;
    var ready := ReclaimDeliveries(cfg, db.entries, now);
    if FirstDelivery(ready, now).Some? { assert IsFirstDelivery(ready, now, FirstDelivery(ready, now).value); }
  }

  /** Marked, renewed or released: the delivery is sent for good, leased afresh, or due again as it was. */
  lemma DeliveryOperationsDo(cfg: Config, db: Db, id: string, token: string, now: Time)
    requires id in db.entries && db.entries[id].delivery.Some?
    ensures var e, d := db.entries[id], db.entries[id].delivery.value;
            && (MarkDelivered(db, id, token, now).Ok? ==>
                  MarkDelivered(db, id, token, now).value.0.entries[id].delivery == Some(d.(status := Sent, token := None, expiresAt := None)))
            && (RenewDelivery(cfg, db, id, token, now).Ok? ==>
                  RenewDelivery(cfg, db, id, token, now).value.0.entries[id].delivery == Some(d.(expiresAt := Some(now + cfg.lease))))
            && (ReleaseDelivery(db, id, token).Ok? ==>
                  ReleaseDelivery(db, id, token).value.0.entries[id].delivery == Some(d.(status := Pending, token := None, expiresAt := None)))
  {
    hide NextOrdinal;
  }

  // ---------------------------------------------------------------- owners

  /** A new request makes one queued job, due at once, under the given id; the same owner and key
      again get that job, whatever id and family they bring, and write nothing. */
  lemma SubmittingTwice(db: Db, owner: string, family: string, key: string, id: string, family': string, id': string)
    requires id !in db.entries && forall prior | prior in db.entries :: !(db.entries[prior].job.owner == owner && db.entries[prior].job.key == key)
    ensures var r := Create(db, owner, family, key, id);
            && r.Ok? && r.value.1 == View(id, Stored(Queued)) && r.value.0.ledger == db.ledger
            && r.value.0.entries.Keys == db.entries.Keys + {id}
            && (forall other | other in db.entries :: r.value.0.entries[other] == db.entries[other])
            && var e := r.value.0.entries[id];
               && e.job.owner == owner && e.job.family == family && e.job.key == key && e.job.status == Queued
               && e.job.attempts == 0 && e.job.availableAt == 0.0 && e.job.failure.None? && e.job.token.None? && e.job.incident.None?
               && e.job.checkpoint.None? && e.job.content.None? && e.mirror.None? && e.delivery.None?
               && e.timeline == [EventRow(0, InvestigationQueued)]
               && Create(r.value.0, owner, family', key, id') == Ok((r.value.0, View(id, Stored(Queued))))
  {
    var r := Create(db, owner, family, key, id);
    var db' := r.value.0;
    assert SameRequest(db'.entries[id].job, owner, key);
    assert forall prior | prior in db'.entries && SameRequest(db'.entries[prior].job, owner, key) :: prior == id;
  }

  /** Nobody but its owner learns of a job or decides it: for everyone else it does not exist. */
  lemma StrangersFindNothing(db: Db, stranger: string, id: string, d: OwnerDecision)
    requires id in db.entries ==> db.entries[id].job.owner != stranger
    ensures StatusOf(db, stranger, id) == NotFound && Report(db, stranger, id) == NotFound && Decide(db, stranger, id, d) == NotFound
  {
  }

  /** Its owner sees the stored status, and a failure instead once there is one. */
  lemma OwnersSeeTheStatus(db: Db, id: string)
    requires id in db.entries
    ensures var job := db.entries[id].job;
            StatusOf(db, job.owner, id) == Ok(View(id, if job.failure.None? then Stored(job.status) else FailedSafe))
  {
  }

  /** Deciding a paused job with a checkpoint nobody has decided: the ledger and the mirror get the
      decision, the job is queued, and the owner is told so. */
  lemma DecidingQueuesTheJob(db: Db, id: string, d: OwnerDecision)
    requires id in db.entries && id !in db.ledger && db.entries[id].mirror.None?
    requires db.entries[id].job.status == PausedApproval && db.entries[id].job.checkpoint.Some? && db.entries[id].job.checkpoint.value != ""
    ensures var e := db.entries[id];
            var row := DecisionRow(e.job.checkpoint.value, d);
            var r := Decide(db, e.job.owner, id, d);
            && r.Ok? && r.value.1 == View(id, Stored(Queued))
            && r.value.0.ledger == db.ledger[id := row]
            && r.value.0.entries.Keys == db.entries.Keys
            && (forall other | other in db.entries && other != id :: r.value.0.entries[other] == db.entries[other])
            && r.value.0.entries[id].job == e.job.(status := Queued) && r.value.0.entries[id].mirror == Some(row)
            && r.value.0.entries[id].delivery == e.delivery
            && Decide(r.value.0, e.job.owner, id, d) == Ok((r.value.0, View(id, Show(e.job.(status := Queued)))))
            && forall other: OwnerDecision | other != d :: Decide(r.value.0, e.job.owner, id, other) == Conflict
  {
    hide NextOrdinal;
    var e := db.entries[id];
    var db' := Decide(db, e.job.owner, id, d).value.0;
    assert db'.(ledger := db'.ledger) == db';
  }
}

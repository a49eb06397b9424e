/** Every operation keeps the invariants of `PlaneRuns`. */
module PlaneSteps {
  import opened Wrappers
  import opened Text
  import opened Decisions
  import opened ControlPlane
  import opened Timeline
  import opened PlaneRuns

  lemma EntryIsHealthy(cfg: Config, plan: Plan, db: Db, issued: set<string>, id: string)
    requires cfg.Valid() && GoodDb(cfg, plan, db, issued) && id in db.entries
    ensures Healthy(cfg, plan, id, db.entries[id], Lookup(db.ledger, id), issued)
    ensures id in db.ledger ==> id in plan && plan[id] == db.ledger[id].checkpoint
  {
  }

  lemma RowOperationsKeepGood(cfg: Config, plan: Plan, w: World, op: Op)
    requires Good(cfg, plan, w) && Legal(plan, w, op)
    requires op.OpRenew? || op.OpPause? || op.OpRequeue? || op.OpRetry? || op.OpFinalize?
    ensures GoodDb(cfg, plan, DbAfter(cfg, w.db, op), w.issued)
  {
    hide GoodDb, GoodEntry, Mild, TokensIssued, RenewChange, RequeueChange, RetryChange, FinalizeChange, Commit;
    if op.id in w.db.entries {
      var e := w.db.entries[op.id];
      var row := Lookup(w.db.ledger, op.id);
      EntryIsHealthy(cfg, plan, w.db, w.issued, op.id);
      match op {
        case OpRenew(id, token, now) =>
          var r := RenewChange(cfg, e, token, now);
          RenewIsSound(cfg, plan, id, e, row, w.issued, token, now);
          if r.Ok? { OneMildWriteKeepsGood(cfg, plan, w.db, w.issued, w.issued, id, r.value); }
        case OpPause(id, checkpoint, token, now) =>
          var r := PauseChange(e, checkpoint, token, now);
          if !IsBlank(checkpoint) && r.Ok? {
            PauseIsSound(cfg, plan, id, e, row, w.issued, checkpoint, token, now);
            OneMildWriteKeepsGood(cfg, plan, w.db, w.issued, w.issued, id, r.value);
          }
        case OpRequeue(id, token) =>
          var r := RequeueChange(e, token);
          RequeueIsSound(cfg, plan, id, e, row, w.issued, token);
          if r.Ok? { OneMildWriteKeepsGood(cfg, plan, w.db, w.issued, w.issued, id, r.value); }
        case OpRetry(id, token, now, reason) =>
          var r := RetryChange(cfg, e, token, now, reason);
          RetryIsSound(cfg, plan, id, e, row, w.issued, token, now, reason);
          if r.Ok? { OneMildWriteKeepsGood(cfg, plan, w.db, w.issued, w.issued, id, r.value.0); }
        case OpFinalize(id, artifact, token, now, snapshot) =>
          var r := FinalizeChange(id, e, artifact, token, now, snapshot);
          FinalizeIsSound(cfg, plan, id, e, row, w.issued, artifact, token, now, snapshot);
          if !IsBlank(artifact) && r.Ok? { OneMildWriteKeepsGood(cfg, plan, w.db, w.issued, w.issued, id, r.value); }
      }
    }
  }

  lemma DeliveryOperationsKeepGood(cfg: Config, plan: Plan, w: World, op: Op)
    requires Good(cfg, plan, w)
    requires op.OpDelivered? || op.OpRenewDelivery? || op.OpReleaseDelivery? || op.OpRetryDelivery?
    ensures GoodDb(cfg, plan, DbAfter(cfg, w.db, op), w.issued)
  {
    hide GoodDb, GoodEntry, Mild, TokensIssued, DeliveredChange, RenewDeliveryChange, ReleaseDeliveryChange, RetryDeliveryChange, Commit;
    if op.id in w.db.entries {
      var e := w.db.entries[op.id];
      var row := Lookup(w.db.ledger, op.id);
      EntryIsHealthy(cfg, plan, w.db, w.issued, op.id);
      match op {
        case OpDelivered(id, token, now) =>
          var r := DeliveredChange(e, token, now);
          DeliveredIsSound(cfg, plan, id, e, row, w.issued, token, now);
          if r.Ok? { OneMildWriteKeepsGood(cfg, plan, w.db, w.issued, w.issued, id, r.value); }
        case OpRenewDelivery(id, token, now) =>
          var r := RenewDeliveryChange(cfg, e, token, now);
          RenewDeliveryIsSound(cfg, plan, id, e, row, w.issued, token, now);
          if r.Ok? { OneMildWriteKeepsGood(cfg, plan, w.db, w.issued, w.issued, id, r.value); }
        case OpReleaseDelivery(id, token) =>
          var r := ReleaseDeliveryChange(e, token);
          ReleaseDeliveryIsSound(cfg, plan, id, e, row, w.issued, token);
          if r.Ok? { OneMildWriteKeepsGood(cfg, plan, w.db, w.issued, w.issued, id, r.value); }
        case OpRetryDelivery(id, token, now, reason) =>
          var r := RetryDeliveryChange(cfg, e, token, now, reason);
          RetryDeliveryIsSound(cfg, plan, id, e, row, w.issued, token, now, reason);
          if r.Ok? { OneMildWriteKeepsGood(cfg, plan, w.db, w.issued, w.issued, id, r.value.0); }
      }
    }
  }

  // ---------------------------------------------------------------- reserving the lab

  /** The one change that is neither mild nor a claim: the running job takes the scenario. The
      second half of `ExclusiveLab` says nobody else holds it. */
  lemma TakingTheLabKeepsRows(entries: Entries, issued: set<string>, id: string, e: Entry)
    requires GoodRows(entries, issued) && id in entries && entries[id].job.status == Running && entries[id].job.incident.None?
    requires e.job == entries[id].job.(incident := e.job.incident) && e.job.incident.Some?
    requires e.delivery == entries[id].delivery
    ensures GoodRows(entries[id := e], issued)
  {
    var after := entries[id := e];
    assert after.Keys == entries.Keys;
    IdentityIsKept(entries, after);
    hide Positioned, UniqueRequests;
    forall other | other in after
      ensures other != id ==> after[other].job.status != Running && !HoldsLab(after[other].job)
      ensures TokensIssued(after[other], issued)
    {
      assert TokensIssued(entries[other], issued);
      assert other != id ==> after[other] == entries[other];
    }
    hide HoldsLab, TokensIssued;
    assert OneRunning(after) && ExclusiveLab(after) && AllIssued(after, issued);
  }

  lemma ReserveKeepsGood(cfg: Config, plan: Plan, db: Db, issued: set<string>, id: string, token: string, now: Time)
    requires cfg.Valid() && GoodDb(cfg, plan, db, issued)
    ensures GoodDb(cfg, plan, After(db, Reserve(db, id, token, now)), issued)
  {
    if id in db.entries {
      var e := db.entries[id];
      EntryIsHealthy(cfg, plan, db, issued, id);
      var r := ReserveChange(id, e, token, now);
      if r.Ok? {
        GoodChange(cfg, plan, id, e, Lookup(db.ledger, id), r.value.0);
        if e.job.incident.None? {
          TakingTheLabKeepsRows(db.entries, issued, id, Commit(e, r.value.0));
        } else {
          OneMildWriteKeepsGood(cfg, plan, db, issued, issued, id, r.value.0);
        }
      }
    }
  }

  // ---------------------------------------------------------------- claiming

  lemma ReclaimKeepsGood(cfg: Config, plan: Plan, db: Db, issued: set<string>, now: Time)
    requires cfg.Valid() && GoodDb(cfg, plan, db, issued)
    ensures GoodDb(cfg, plan, db.(entries := ReclaimAll(cfg, db.entries, now)), issued)
  {
    var after := ReclaimAll(cfg, db.entries, now);
    forall id | id in db.entries
      ensures GoodEntry(cfg, plan, id, after[id], Lookup(db.ledger, id)) && Mild(db.entries[id], after[id], issued)
    {
      EntryIsHealthy(cfg, plan, db, issued, id);
      ReclaimIsSound(cfg, plan, id, db.entries[id], Lookup(db.ledger, id), issued, now);
    }
    MildChangesKeepRows(db.entries, after, issued, issued);
  }

  /** No integrity error is reachable: every paused job's ledger row names its own checkpoint. */
  lemma ReconcileKeepsGood(cfg: Config, plan: Plan, db: Db, issued: set<string>)
    requires cfg.Valid() && GoodDb(cfg, plan, db, issued)
    ensures Reconcilable(db) && GoodDb(cfg, plan, db.(entries := ReconcileAll(db)), issued)
  {
    forall id | id in db.entries
      ensures var r := ReconcileChange(db.entries[id], Lookup(db.ledger, id));
              r.Ok? && Sound(cfg, plan, id, db.entries[id], Lookup(db.ledger, id), issued, r.value)
    {
      EntryIsHealthy(cfg, plan, db, issued, id);
      ReconcileIsSound(cfg, plan, id, db.entries[id], Lookup(db.ledger, id), issued);
    }
    MildChangesKeepRows(db.entries, ReconcileAll(db), issued, issued);
  }

  /** The row `claim_next` picks may run: nothing else runs, and it holds the scenario if any
      waiting job does. */
  lemma StartingTheFirstKeepsRows(cfg: Config, entries: Entries, issued: set<string>, now: Time, id: string, token: string)
    requires GoodRows(entries, issued)
    requires !AnyRunning(entries) && !Deferred(entries, now) && IsFirst(entries, now, id)
    ensures GoodRows(entries[id := Commit(entries[id], ClaimChange(cfg, entries[id], now, token))], issued + {token})
  {
    hide Append;
    var started := Commit(entries[id], ClaimChange(cfg, entries[id], now, token));
    var after := entries[id := started];
    assert after.Keys == entries.Keys;
    IdentityIsKept(entries, after);
    hide Positioned, UniqueRequests;
    assert TokensIssued(entries[id], issued) && TokensIssued(started, issued + {token});
    assert started.job.incident == entries[id].job.incident && started.job.status == Running;
    hide Commit;
    forall other | other in after
      ensures other != id ==> after[other].job.status != Running
      ensures TokensIssued(after[other], issued + {token})
      ensures other != id && started.job.incident.None? ==> !HoldsLab(after[other].job)
      ensures HoldsLab(after[other].job) ==> HoldsLab(entries[other].job)
    {
      if other != id {
        assert after[other] == entries[other];
        assert TokensIssued(entries[other], issued);
      }
    }
    hide TokensIssued, HoldsLab, Claimable, NoLater;
    assert OneRunning(after) && ExclusiveLab(after) && AllIssued(after, issued + {token});
  }

  lemma StartIsGood(cfg: Config, plan: Plan, id: string, e: Entry, row: Option<DecisionRow>, issued: set<string>,
                    now: Time, token: string)
    requires Healthy(cfg, plan, id, e, row, issued) && Claimable(e.job, now)
    ensures GoodEntry(cfg, plan, id, Commit(e, ClaimChange(cfg, e, now, token)), row)
  {
    GoodChange(cfg, plan, id, e, row, ClaimChange(cfg, e, now, token));
  }

  /** What `claim_next` works on once expired leases are reclaimed and decisions reconciled. */
  ghost function Ready(cfg: Config, db: Db, now: Time): Db
    requires Reconcilable(db.(entries := ReclaimAll(cfg, db.entries, now)))
  {
    db.(entries := ReconcileAll(db.(entries := ReclaimAll(cfg, db.entries, now))))
  }

  lemma ReadyIsGood(cfg: Config, plan: Plan, db: Db, issued: set<string>, now: Time)
    requires cfg.Valid() && GoodDb(cfg, plan, db, issued)
    ensures Reconcilable(db.(entries := ReclaimAll(cfg, db.entries, now)))
    ensures GoodDb(cfg, plan, Ready(cfg, db, now), issued)
  {
    ReclaimKeepsGood(cfg, plan, db, issued, now);
    ReconcileKeepsGood(cfg, plan, db.(entries := ReclaimAll(cfg, db.entries, now)), issued);
  }

  /** A queued job was paused once exactly when its decision is mirrored, and the mirror is the
      ledger's row. */
  lemma QueuedDecision(cfg: Config, plan: Plan, id: string, e: Entry, row: Option<DecisionRow>)
    requires GoodEntry(cfg, plan, id, e, row) && e.job.status == Queued
    ensures e.job.checkpoint.Some? <==> e.mirror.Some?
    ensures e.mirror.Some? ==> e.mirror == row && e.job.checkpoint == Some(e.mirror.value.checkpoint) && e.mirror.value.checkpoint != ""
  {
  }

  lemma StartKeepsGood(cfg: Config, plan: Plan, db: Db, issued: set<string>, now: Time, id: string, token: string)
    requires cfg.Valid() && GoodDb(cfg, plan, db, issued)
    requires Choose(db.entries, now) == Some(id)
    ensures IsFirst(db.entries, now, id)
    ensures GoodDb(cfg, plan, Write(db, id, ClaimChange(cfg, db.entries[id], now, token)), issued + {token})
  {
    EntryIsHealthy(cfg, plan, db, issued, id);
    StartIsGood(cfg, plan, id, db.entries[id], Lookup(db.ledger, id), issued, now, token);
    StartingTheFirstKeepsRows(cfg, db.entries, issued, now, id, token);
    hide GoodEntry, GoodRows, ClaimChange, Commit, NoLater;
    var claimed := Write(db, id, ClaimChange(cfg, db.entries[id], now, token));
    forall other | other in claimed.entries
      ensures GoodEntry(cfg, plan, other, claimed.entries[other], Lookup(claimed.ledger, other))
    {
      if other != id { assert claimed.entries[other] == db.entries[other]; }
    }
  }

  /** On good rows `claim_next` never raises, writes no ledger row, and hands out a decision
      exactly when the job was paused once: the ledger's own. */
  lemma ClaimNextIsSafe(cfg: Config, plan: Plan, db: Db, issued: set<string>, now: Time, token: string)
    requires cfg.Valid() && GoodDb(cfg, plan, db, issued)
    ensures var r := ClaimNext(cfg, db, now, token);
            && r.Ok?
            && r.value.0.ledger == db.ledger
            && GoodDb(cfg, plan, r.value.0, issued + {token})
            && (r.value.1.Some? ==>
                  var claim := r.value.1.value;
                  && (claim.checkpoint.Some? <==> claim.decision.Some?)
                  && (claim.decision.Some? ==>
                        claim.id in db.ledger && db.ledger[claim.id] == DecisionRow(claim.checkpoint.value, claim.decision.value)))
  {
    ReadyIsGood(cfg, plan, db, issued, now);
    var ready := Ready(cfg, db, now);
    match Choose(ready.entries, now) {
      case None =>
        GoodRowsMonotone(ready.entries, issued, token);
        hide GoodEntry, GoodRows, Choose, ReclaimAll, ReconcileAll;
        assert ClaimNext(cfg, db, now, token) == Ok((ready, None));
      case Some(id) =>
        StartKeepsGood(cfg, plan, ready, issued, now, id, token);
        QueuedDecision(cfg, plan, id, ready.entries[id], Lookup(ready.ledger, id));
        hide GoodDb, GoodEntry, Choose, ClaimChange, Commit, ReclaimAll, ReconcileAll, IsFirst;
    }
  }

  lemma GoodRowsMonotone(entries: Entries, issued: set<string>, token: string)
    requires GoodRows(entries, issued)
    ensures GoodRows(entries, issued + {token})
  {
    forall id | id in entries ensures TokensIssued(entries[id], issued + {token}) {
      assert TokensIssued(entries[id], issued);
    }
  }

  lemma ReclaimDeliveriesKeepsGood(cfg: Config, plan: Plan, db: Db, issued: set<string>, now: Time)
    requires cfg.Valid() && GoodDb(cfg, plan, db, issued)
    ensures GoodDb(cfg, plan, db.(entries := ReclaimDeliveries(cfg, db.entries, now)), issued)
  {
    var after := ReclaimDeliveries(cfg, db.entries, now);
    forall id | id in db.entries
      ensures GoodEntry(cfg, plan, id, after[id], Lookup(db.ledger, id)) && Mild(db.entries[id], after[id], issued)
    {
      EntryIsHealthy(cfg, plan, db, issued, id);
      ReclaimDeliveryIsSound(cfg, plan, id, db.entries[id], Lookup(db.ledger, id), issued, now);
    }
    MildChangesKeepRows(db.entries, after, issued, issued);
  }

  lemma ClaimDeliveryKeepsGood(cfg: Config, plan: Plan, db: Db, issued: set<string>, now: Time, token: string)
    requires cfg.Valid() && GoodDb(cfg, plan, db, issued)
    ensures GoodDb(cfg, plan, After(db, ClaimDelivery(cfg, db, now, token)), issued + {token})
  {
    ReclaimDeliveriesKeepsGood(cfg, plan, db, issued, now);
    var ready := db.(entries := ReclaimDeliveries(cfg, db.entries, now));
    match FirstDelivery(ready.entries, now) {
      case None =>
        hide GoodEntry, ReclaimDeliveries;
        GoodRowsMonotone(ready.entries, issued, token);
        hide GoodRows;
      case Some(id) =>
        EntryIsHealthy(cfg, plan, ready, issued, id);
        ClaimDeliveryIsSound(cfg, plan, id, ready.entries[id], Lookup(ready.ledger, id), issued, now, token);
        hide GoodDb, Healthy, Deliverable, GoodEntry, Mild, TokensIssued, ClaimDeliveryChange, Commit, ReclaimDeliveries, IsFirstDelivery;
        OneMildWriteKeepsGood(cfg, plan, ready, issued, issued + {token}, id, ClaimDeliveryChange(cfg, ready.entries[id], now, token));
    }
  }

  // ---------------------------------------------------------------- creating and deciding

  lemma NewEntryIsGood(cfg: Config, plan: Plan, id: string, position: nat, owner: string, family: string, key: string,
                       row: Option<DecisionRow>, issued: set<string>)
    requires cfg.Valid()
    ensures var e := Entry(NewJob(position, owner, family, key), Append([], Some(InvestigationQueued)), None, None);
            GoodEntry(cfg, plan, id, e, row) && TokensIssued(e, issued)
  {
    var e := Entry(NewJob(position, owner, family, key), Append([], Some(InvestigationQueued)), None, None);
    assert e.timeline == [EventRow(0, InvestigationQueued)];
  }

  lemma NewRowIsIdentified(entries: Entries, id: string, e: Entry)
    requires Positioned(entries) && UniqueRequests(entries) && id !in entries
    requires e.job.position == |entries| + 1
    requires forall prior | prior in entries :: !SameRequest(entries[prior].job, e.job.owner, e.job.key)
    ensures Positioned(entries[id := e]) && UniqueRequests(entries[id := e])
  {
    var after := entries[id := e];
    assert |after| == |entries| + 1;
    forall other | other in entries ensures after[other] == entries[other] && other != id {}
    forall a, b | a in after && b in after && SameRequest(after[a].job, after[b].job.owner, after[b].job.key)
      ensures a == b
    {
      assert SameRequest(after[b].job, after[a].job.owner, after[a].job.key);
      if a in entries && b in entries {
        assert SameRequest(entries[a].job, entries[b].job.owner, entries[b].job.key);
      }
    }
  }

  lemma NewRowKeepsRows(entries: Entries, issued: set<string>, id: string, e: Entry)
    requires GoodRows(entries, issued) && id !in entries && TokensIssued(e, issued)
    requires e.job.position == |entries| + 1 && e.job.status == Queued && e.job.incident.None?
    requires forall prior | prior in entries :: !SameRequest(entries[prior].job, e.job.owner, e.job.key)
    ensures GoodRows(entries[id := e], issued)
  {
    NewRowIsIdentified(entries, id, e);
    hide Positioned, UniqueRequests, TokensIssued;
    var after := entries[id := e];
    forall other | other in after
      ensures other != id ==> other in entries && after[other] == entries[other]
      ensures other == id ==> after[other].job.status != Running && !HoldsLab(after[other].job)
    {
    }
    hide HoldsLab, SameRequest;
    assert AllIssued(after, issued);
    assert OneRunning(after);
    assert ExclusiveLab(after);
  }

  lemma CreateKeepsGood(cfg: Config, plan: Plan, db: Db, issued: set<string>, owner: string, family: string, key: string, id: string)
    requires cfg.Valid() && GoodDb(cfg, plan, db, issued) && id !in db.entries
    ensures GoodDb(cfg, plan, After(db, Create(db, owner, family, key, id)), issued)
  {
    if !exists prior :: prior in db.entries && SameRequest(db.entries[prior].job, owner, key) {
      var position := |db.entries| + 1;
      var e := Entry(NewJob(position, owner, family, key), Append([], Some(InvestigationQueued)), None, None);
      assert After(db, Create(db, owner, family, key, id)) == db.(entries := db.entries[id := e]);
      hide GoodDb, Create;
      NewJobKeepsGood(cfg, plan, db, issued, owner, family, key, id, e);
    }
  }

  lemma NewJobKeepsGood(cfg: Config, plan: Plan, db: Db, issued: set<string>, owner: string, family: string, key: string, id: string, e: Entry)
    requires cfg.Valid() && GoodDb(cfg, plan, db, issued) && id !in db.entries
    requires e == Entry(NewJob(|db.entries| + 1, owner, family, key), Append([], Some(InvestigationQueued)), None, None)
    requires !exists prior :: prior in db.entries && SameRequest(db.entries[prior].job, owner, key)
    ensures GoodDb(cfg, plan, db.(entries := db.entries[id := e]), issued)
  {
    NewEntryIsGood(cfg, plan, id, |db.entries| + 1, owner, family, key, Lookup(db.ledger, id), issued);
    NewRowKeepsRows(db.entries, issued, id, e);
    hide GoodEntry, GoodRows, TokensIssued, Append, SameRequest, NewJob, GoodLedger;
    var after := db.(entries := db.entries[id := e]);
    forall other | other in after.entries
      ensures GoodEntry(cfg, plan, other, after.entries[other], Lookup(after.ledger, other))
    {
      if other != id { assert after.entries[other] == db.entries[other]; }
    }
  }

  /** Adding a job's first ledger row disturbs no row: until then it has no mirror to agree with. */
  lemma FirstLedgerRowKeepsGood(cfg: Config, plan: Plan, db: Db, issued: set<string>, id: string, row: DecisionRow)
    requires cfg.Valid() && GoodDb(cfg, plan, db, issued) && id !in db.ledger
    requires id in plan && plan[id] == row.checkpoint && row.decision.Valid()
    ensures GoodDb(cfg, plan, db.(ledger := db.ledger[id := row]), issued)
  {
    var after := db.(ledger := db.ledger[id := row]);
    forall other | other in db.entries
      ensures GoodEntry(cfg, plan, other, after.entries[other], Lookup(after.ledger, other))
    {
      EntryIsHealthy(cfg, plan, db, issued, other);
    }
  }

  /** A decision that is accepted is the ledger's, and the ledger's never changes. */
  lemma DecideKeepsGood(cfg: Config, plan: Plan, db: Db, issued: set<string>, owner: string, id: string, d: OwnerDecision)
    requires cfg.Valid() && GoodDb(cfg, plan, db, issued) && d.Valid()
    ensures var r := Decide(db, owner, id, d);
            && GoodDb(cfg, plan, After(db, r), issued)
            && GoodDb(cfg, plan, DecideThenCrash(db, owner, id, d), issued)
            && r != Integrity
            && (r.Ok? ==> id in r.value.0.ledger && r.value.0.ledger[id].decision == d)
            && forall other | other in db.ledger :: other in After(db, r).ledger && After(db, r).ledger[other] == db.ledger[other]
  {
    if id in db.entries {
      EntryIsHealthy(cfg, plan, db, issued, id);
      if Decide(db, owner, id, d).Ok? {
        hide GoodDb, Healthy;
        DecidingKeepsGood(cfg, plan, db, issued, owner, id, d);
      } else {
        hide GoodDb;
      }
    } else {
      hide GoodDb;
    }
  }

  /** An accepted decision, once it is in the ledger. */
  lemma TellingKeepsGood(cfg: Config, plan: Plan, db: Db, issued: set<string>, owner: string, id: string, d: OwnerDecision)
    requires cfg.Valid() && GoodDb(cfg, plan, db, issued) && d.Valid() && Decide(db, owner, id, d).Ok?
    ensures var ledger := Decide(db, owner, id, d).value.0.ledger;
            && GoodDb(cfg, plan, db.(ledger := ledger), issued)
            && id in ledger && ledger[id].decision == d
            && (forall other | other in db.ledger :: other in ledger && ledger[other] == db.ledger[other])
            && ledger[id] == DecisionRow(db.entries[id].job.checkpoint.value, d)
  {
    EntryIsHealthy(cfg, plan, db, issued, id);
    var row := DecisionRow(db.entries[id].job.checkpoint.value, d);
    if id !in db.ledger {
      FirstLedgerRowKeepsGood(cfg, plan, db, issued, id, row);
    }
    hide GoodDb, GoodEntry, Mild;
    assert db.(ledger := db.ledger) == db;
  }

  lemma DecidingKeepsGood(cfg: Config, plan: Plan, db: Db, issued: set<string>, owner: string, id: string, d: OwnerDecision)
    requires cfg.Valid() && GoodDb(cfg, plan, db, issued) && d.Valid() && Decide(db, owner, id, d).Ok?
    ensures var r := Decide(db, owner, id, d);
            && GoodDb(cfg, plan, After(db, r), issued)
            && GoodDb(cfg, plan, DecideThenCrash(db, owner, id, d), issued)
            && id in r.value.0.ledger && r.value.0.ledger[id].decision == d
            && forall other | other in db.ledger :: other in After(db, r).ledger && After(db, r).ledger[other] == db.ledger[other]
  {
    var r, e := Decide(db, owner, id, d), db.entries[id];
    var row := DecisionRow(e.job.checkpoint.value, d);
    var told := db.(ledger := r.value.0.ledger);
    EntryIsHealthy(cfg, plan, db, issued, id);
    TellingKeepsGood(cfg, plan, db, issued, owner, id, d);
    hide GoodDb;
    EntryIsHealthy(cfg, plan, told, issued, id);
    if e.mirror.None? {
      ReconcileIsSound(cfg, plan, id, e, Some(row), issued);
      OneMildWriteKeepsGood(cfg, plan, told, issued, issued, id, ReconcileChange(e, Some(row)).value);
    }
    hide Healthy, GoodEntry, Mild;
  }

  // ---------------------------------------------------------------- any step, any run

  lemma LedgerOnlyGrows(cfg: Config, plan: Plan, w: World, op: Op)
    requires Good(cfg, plan, w) && Legal(plan, w, op)
    ensures forall id | id in w.db.ledger ::
              id in DbAfter(cfg, w.db, op).ledger && DbAfter(cfg, w.db, op).ledger[id] == w.db.ledger[id]
  {
    hide GoodDb, RenewChange, ReserveChange, PauseChange, RequeueChange, RetryChange, FinalizeChange, DeliveredChange,
      RenewDeliveryChange, ReleaseDeliveryChange, RetryDeliveryChange, Commit, Decide, ClaimNext;
    match op {
      case OpDecide(owner, id, d) => DecideKeepsGood(cfg, plan, w.db, w.issued, owner, id, d);
      case OpDecideThenCrash(owner, id, d) => DecideKeepsGood(cfg, plan, w.db, w.issued, owner, id, d);
      case OpClaimNext(now, token) => ClaimNextIsSafe(cfg, plan, w.db, w.issued, now, token);
      case _ =>
    }
  }

  lemma StepKeepsGoodDb(cfg: Config, plan: Plan, w: World, op: Op)
    requires Good(cfg, plan, w) && Legal(plan, w, op)
    ensures GoodDb(cfg, plan, DbAfter(cfg, w.db, op), Step(cfg, w, op).issued)
  {
    hide GoodDb, Create, Decide, ClaimNext, Reserve, ClaimDelivery, Renew, Pause, Requeue, Retry, Finalize, MarkDelivered, RenewDelivery, ReleaseDelivery, RetryDelivery;
    match op {
      case OpCreate(owner, family, key, id) => CreateKeepsGood(cfg, plan, w.db, w.issued, owner, family, key, id);
      case OpDecide(owner, id, d) => DecideKeepsGood(cfg, plan, w.db, w.issued, owner, id, d);
      case OpDecideThenCrash(owner, id, d) => DecideKeepsGood(cfg, plan, w.db, w.issued, owner, id, d);
      case OpCliRecord(id, row) =>
        if id !in w.db.ledger { FirstLedgerRowKeepsGood(cfg, plan, w.db, w.issued, id, row); }
      case OpCliRetry(_, _) =>
      case OpResume(_, _) =>
      case OpClaimNext(now, token) => ClaimNextIsSafe(cfg, plan, w.db, w.issued, now, token);
      case OpReserve(id, token, now) => ReserveKeepsGood(cfg, plan, w.db, w.issued, id, token, now);
      case OpClaimDelivery(now, token) => ClaimDeliveryKeepsGood(cfg, plan, w.db, w.issued, now, token);
      case OpRenew(_, _, _) => RowOperationsKeepGood(cfg, plan, w, op);
      case OpPause(_, _, _, _) => RowOperationsKeepGood(cfg, plan, w, op);
      case OpRequeue(_, _) => RowOperationsKeepGood(cfg, plan, w, op);
      case OpRetry(_, _, _, _) => RowOperationsKeepGood(cfg, plan, w, op);
      case OpFinalize(_, _, _, _, _) => RowOperationsKeepGood(cfg, plan, w, op);
      case _ => DeliveryOperationsKeepGood(cfg, plan, w, op);
    }
  }

  lemma StepKeepsGood(cfg: Config, plan: Plan, w: World, op: Op)
    requires Good(cfg, plan, w) && Legal(plan, w, op)
    ensures Good(cfg, plan, Step(cfg, w, op))
  {
    hide GoodDb, DbAfter, Granted, Legal, PlanNamed;
    StepKeepsGoodDb(cfg, plan, w, op);
    LedgerOnlyGrows(cfg, plan, w, op);
    GrantsComeFromTheLedger(cfg, plan, w, op);
    ResumingNeedsAuthority(plan, w, op);
  }

  lemma ResumingNeedsAuthority(plan: Plan, w: World, op: Op)
    requires Legal(plan, w, op)
    ensures op.OpResume? ==> (op.id, op.decision) in w.authorized
  {
  }

  /** Whoever is handed a decision is handed the ledger's. */
  lemma GrantsComeFromTheLedger(cfg: Config, plan: Plan, w: World, op: Op)
    requires Good(cfg, plan, w)
    ensures forall p | p in Granted(cfg, w, op) :: p.0 in DbAfter(cfg, w.db, op).ledger && DbAfter(cfg, w.db, op).ledger[p.0].decision == p.1
  {
    hide GoodDb, ClaimNext, Create, Decide, Reserve, ClaimDelivery, Renew, Pause, Requeue, Retry, Finalize, MarkDelivered, RenewDelivery,
      ReleaseDelivery, RetryDelivery;
    if op.OpClaimNext? {
      ClaimNextIsSafe(cfg, plan, w.db, w.issued, op.now, op.token);
    }
  }

  lemma {:induction false} RunKeepsGood(cfg: Config, plan: Plan, w: World, ops: seq<Op>)
    requires Good(cfg, plan, w) && LegalRun(cfg, plan, w, ops)
    ensures Good(cfg, plan, Run(cfg, w, ops))
    decreases |ops|
  {
    if ops != [] {
      StepKeepsGood(cfg, plan, w, ops[0]);
      RunKeepsGood(cfg, plan, Step(cfg, w, ops[0]), ops[1..]);
    }
  }
}

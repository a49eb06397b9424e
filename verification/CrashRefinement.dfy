/** The two databases behave like one. Abstractly a decision takes effect when its ledger row is
    written; `Settled` is that abstract database. Every concrete step, crashes included, is the
    abstract step, and the next `claim_next` makes the two databases agree again. */
module CrashRefinement {
  import opened Wrappers
  import opened Text
  import opened Decisions
  import opened ControlPlane
  import opened Timeline
  import opened PlaneRuns
  import opened PlaneSteps
  import opened PlaneHistory

  /** The job's rows once the decision in the ledger, if any, has taken effect. */
  function Settle(e: Entry, row: Option<DecisionRow>): Entry {
    var r := ReconcileChange(e, row);
    if r.Ok? then Commit(e, r.value) else e
  }

  function Settled(db: Db): Db {
    db.(entries := map id | id in db.entries :: Settle(db.entries[id], Lookup(db.ledger, id)))
  }

  // ---------------------------------------------------------------- crash, then claim

  function Decided(e: Entry, row: DecisionRow): Entry {
    Commit(e, Change(e.job.(status := Queued), Some(row), e.delivery,
                     Some(DecisionRecorded(row.checkpoint, row.decision.verdict))))
  }

  lemma CrashedRowsSettleAlike(cfg: Config, e: Entry, row: DecisionRow, now: Time)
    requires e.job.status == PausedApproval && e.mirror.None? && e.job.checkpoint == Some(row.checkpoint) && row.checkpoint != ""
    ensures var decided := Decided(e, row);
            && Commit(e, ReclaimChange(cfg, e, now)) == e
            && Commit(decided, ReclaimChange(cfg, decided, now)) == decided
            && ReconcileChange(decided, Some(row)) == Ok(Keep(decided))
            && ReconcileChange(e, Some(row)).Ok?
            && Commit(e, ReconcileChange(e, Some(row)).value) == decided
  {
  }

  /** `crashed` is `decided` except that one paused job's ledger row is not mirrored yet. */
  ghost predicate OnlyUnmirrored(crashed: Db, decided: Db, id: string) {
    && crashed.ledger == decided.ledger
    && id in crashed.ledger && id in crashed.entries
    && var e, row := crashed.entries[id], crashed.ledger[id];
    && e.job.status == PausedApproval && e.mirror.None? && e.job.checkpoint == Some(row.checkpoint) && row.checkpoint != ""
    && decided.entries == crashed.entries[id := Decided(e, row)]
  }

  lemma CrashLeavesOneUnmirrored(db: Db, owner: string, id: string, d: OwnerDecision)
    ensures var crashed, decided := DecideThenCrash(db, owner, id, d), After(db, Decide(db, owner, id, d));
            crashed == decided || OnlyUnmirrored(crashed, decided, id)
  {
    hide Commit;
  }

  /** Databases that reconcile to the same rows get the same claim. */
  ghost predicate SameOnceReady(cfg: Config, a: Db, b: Db, now: Time) {
    var ra := a.(entries := ReclaimAll(cfg, a.entries, now));
    var rb := b.(entries := ReclaimAll(cfg, b.entries, now));
    && a.ledger == b.ledger
    && Reconcilable(ra) == Reconcilable(rb)
    && (Reconcilable(ra) ==> ReconcileAll(ra) == ReconcileAll(rb))
  }

  /** This row reconciles alike in both databases once expired leases are reclaimed. */
  ghost predicate ReconcilesAlike(cfg: Config, a: Db, b: Db, now: Time, id: string) {
    && id in a.entries && id in b.entries
    && var e, f := Commit(a.entries[id], ReclaimChange(cfg, a.entries[id], now)), Commit(b.entries[id], ReclaimChange(cfg, b.entries[id], now));
    && var r, s := ReconcileChange(e, Lookup(a.ledger, id)), ReconcileChange(f, Lookup(b.ledger, id));
    && r.Ok? == s.Ok?
    && (r.Ok? ==> Commit(e, r.value) == Commit(f, s.value))
  }

  lemma CrashedRowReconcilesAlike(cfg: Config, crashed: Db, decided: Db, id: string, now: Time, other: string)
    requires OnlyUnmirrored(crashed, decided, id) && other in crashed.entries
    ensures ReconcilesAlike(cfg, crashed, decided, now, other)
  {
    if other == id {
      var e, row := crashed.entries[id], crashed.ledger[id];
      CrashedRowsSettleAlike(cfg, e, row, now);
      var d := decided.entries[id];
      assert Commit(d, Keep(d)) == d;
      hide Commit, ReclaimChange, ReconcileChange, Keep, Decided;
    } else {
      hide Commit, ReclaimChange, ReconcileChange, Decided;
    }
  }

  lemma AllReconcileAlike(cfg: Config, a: Db, b: Db, now: Time)
    requires a.ledger == b.ledger && a.entries.Keys == b.entries.Keys
    requires forall id | id in a.entries :: ReconcilesAlike(cfg, a, b, now, id)
    ensures SameOnceReady(cfg, a, b, now)
  {
    hide Commit, ReclaimChange, ReconcileChange;
    var ra, rb := a.(entries := ReclaimAll(cfg, a.entries, now)), b.(entries := ReclaimAll(cfg, b.entries, now));
    forall id | id in a.entries
      ensures ReconcileChange(ra.entries[id], Lookup(ra.ledger, id)).Ok? == ReconcileChange(rb.entries[id], Lookup(rb.ledger, id)).Ok?
      ensures ReconcileChange(ra.entries[id], Lookup(ra.ledger, id)).Ok? ==>
                Commit(ra.entries[id], ReconcileChange(ra.entries[id], Lookup(ra.ledger, id)).value)
                == Commit(rb.entries[id], ReconcileChange(rb.entries[id], Lookup(rb.ledger, id)).value)
    {
      assert ReconcilesAlike(cfg, a, b, now, id);
    }
    hide ReconcilesAlike;
    if Reconcilable(ra) {
      assert Reconcilable(rb);
      assert ReconcileAll(ra) == ReconcileAll(rb);
    }
  }

  lemma ReconcileAfterCrash(cfg: Config, crashed: Db, decided: Db, id: string, now: Time)
    requires OnlyUnmirrored(crashed, decided, id)
    ensures SameOnceReady(cfg, crashed, decided, now)
  {
    hide ReconcilesAlike, SameOnceReady, Decided;
    assert crashed.entries.Keys == decided.entries.Keys;
    forall other | other in crashed.entries ensures ReconcilesAlike(cfg, crashed, decided, now, other) {
      CrashedRowReconcilesAlike(cfg, crashed, decided, id, now, other);
    }
    AllReconcileAlike(cfg, crashed, decided, now);
  }

  lemma SameOnceReadySameClaim(cfg: Config, a: Db, b: Db, now: Time, token: string)
    requires SameOnceReady(cfg, a, b, now)
    ensures ClaimNext(cfg, a, now, token) == ClaimNext(cfg, b, now, token)
  {
    hide ReclaimAll, ReconcileAll, Reconcilable, Choose, Write, ClaimChange, EnsureLedger;
    var ra := a.(entries := ReclaimAll(cfg, a.entries, now));
    if Reconcilable(ra) {
      var rb := b.(entries := ReclaimAll(cfg, b.entries, now));
      assert a.(entries := ReconcileAll(ra)) == b.(entries := ReconcileAll(rb));
    }
  }

  /** Whatever the databases held: if the process dies between the ledger commit and the
      control-plane commit of a decision, the next claim answers and leaves exactly what it would
      have had the decision completed. */
  lemma CrashThenClaimIsDecideThenClaim(cfg: Config, db: Db, owner: string, id: string, d: OwnerDecision, now: Time, token: string)
    ensures ClaimNext(cfg, DecideThenCrash(db, owner, id, d), now, token)
         == ClaimNext(cfg, After(db, Decide(db, owner, id, d)), now, token)
  {
    hide OnlyUnmirrored, DecideThenCrash, Decide, ClaimNext, ReclaimAll, ReconcileAll, Reconcilable;
    var crashed, decided := DecideThenCrash(db, owner, id, d), After(db, Decide(db, owner, id, d));
    CrashLeavesOneUnmirrored(db, owner, id, d);
    if crashed != decided {
      ReconcileAfterCrash(cfg, crashed, decided, id, now);
      SameOnceReadySameClaim(cfg, crashed, decided, now, token);
    }
  }

  // ---------------------------------------------------------------- every step refines the abstract step

  /** The ledger holds a decision its paused job does not mirror yet. */
  predicate Pending(e: Entry, row: Option<DecisionRow>) {
    e.job.status == PausedApproval && row.Some?
  }

  lemma SettlingGoodRows(cfg: Config, plan: Plan, id: string, e: Entry, row: Option<DecisionRow>, issued: set<string>)
    requires Healthy(cfg, plan, id, e, row, issued)
    requires row.Some? ==> id in plan && plan[id] == row.value.checkpoint
    ensures ReconcileChange(e, row).Ok?
    ensures !Pending(e, row) ==> Settle(e, row) == e
    ensures Pending(e, row) ==>
              && e.job.checkpoint == Some(row.value.checkpoint) && row.value.checkpoint != "" && e.mirror.None?
              && e.job.token.None? && e.delivery.None?
              && Settle(e, row) == Decided(e, row.value)
              && Settle(Settle(e, row), row) == Settle(e, row)
  {
  }

  /** Settling touches nothing a worker, a sender or an owner's request is matched against. */
  lemma SettlingIsQuiet(e: Entry, row: Option<DecisionRow>)
    ensures var s := Settle(e, row);
            && SameIdentity(e.job, s.job) && s.delivery == e.delivery
            && s.job.token == e.job.token && s.job.checkpoint == e.job.checkpoint
            && (s.job.status == Running <==> e.job.status == Running)
            && (s.job.status == Completed || e.job.status == Completed ==> s == e)
  {
  }

  lemma SettledIsReconciled(db: Db)
    requires Reconcilable(db)
    ensures Settled(db) == db.(entries := ReconcileAll(db))
  {
    hide ReconcileChange, Commit;
    assert Settled(db).entries == ReconcileAll(db);
  }

  lemma SettledIsGood(cfg: Config, plan: Plan, db: Db, issued: set<string>)
    requires cfg.Valid() && GoodDb(cfg, plan, db, issued)
    ensures GoodDb(cfg, plan, Settled(db), issued)
  {
    hide GoodDb, Reconcilable, ReconcileAll, Settled;
    ReconcileKeepsGood(cfg, plan, db, issued);
    SettledIsReconciled(db);
  }

  lemma SettledRow(cfg: Config, plan: Plan, db: Db, issued: set<string>, id: string)
    requires cfg.Valid() && GoodDb(cfg, plan, db, issued) && id in db.entries
    ensures var e, row := db.entries[id], Lookup(db.ledger, id);
            && Settled(db).entries[id] == Settle(e, row)
            && Settle(Settle(e, row), row) == Settle(e, row)
            && (!Pending(e, row) ==> Settle(e, row) == e)
            && (Pending(e, row) ==> e.job.token.None? && e.delivery.None? && Settle(e, row).job.status == Queued)
  {
    EntryIsHealthy(cfg, plan, db, issued, id);
    SettlingGoodRows(cfg, plan, id, db.entries[id], Lookup(db.ledger, id), issued);
    hide GoodDb, Healthy, ReconcileChange;
  }

  /** Operations that present a token treat a pending job like the settled one: they refuse it. */
  ghost predicate SameOutcome<T>(r: Reply<T>, r': Reply<T>) {
    r == r' && !r.Ok?
  }

  lemma PendingRefusesTokens(cfg: Config, id: string, e: Entry, row: Option<DecisionRow>, token: string, now: Time,
                             checkpoint: string, reason: string, artifact: string, snapshot: Option<string>)
    requires Pending(e, row) && e.job.token.None? && e.delivery.None? && Settle(e, row).job.status == Queued
    ensures var s := Settle(e, row);
            && SameOutcome(RenewChange(cfg, e, token, now), RenewChange(cfg, s, token, now))
            && SameOutcome(ReserveChange(id, e, token, now), ReserveChange(id, s, token, now))
            && SameOutcome(PauseChange(e, checkpoint, token, now), PauseChange(s, checkpoint, token, now))
            && SameOutcome(RequeueChange(e, token), RequeueChange(s, token))
            && SameOutcome(RetryChange(cfg, e, token, now, reason), RetryChange(cfg, s, token, now, reason))
            && SameOutcome(FinalizeChange(id, e, artifact, token, now, snapshot), FinalizeChange(id, s, artifact, token, now, snapshot))
            && SameOutcome(DeliveredChange(e, token, now), DeliveredChange(s, token, now))
            && SameOutcome(RenewDeliveryChange(cfg, e, token, now), RenewDeliveryChange(cfg, s, token, now))
            && SameOutcome(ReleaseDeliveryChange(e, token), ReleaseDeliveryChange(s, token))
            && SameOutcome(RetryDeliveryChange(cfg, e, token, now, reason), RetryDeliveryChange(cfg, s, token, now, reason))
  {
    SettlingIsQuiet(e, row);
    hide Settle;
  }

  lemma SettlingTwice(cfg: Config, plan: Plan, db: Db, issued: set<string>)
    requires cfg.Valid() && GoodDb(cfg, plan, db, issued)
    ensures Settled(Settled(db)) == Settled(db)
  {
    hide GoodDb, Settle, SettleAlike;
    SettledShape(db);
    forall id | id in Settled(db).entries ensures SettleAlike(Settled(db), db, id) {
      SettledRow(cfg, plan, db, issued, id);
      SettleAlikeMeans(Settled(db), db, id);
    }
    hide Settled;
    RowsSettleAlike(Settled(db), db);
  }

  lemma SettledShape(db: Db)
    ensures Settled(db).entries.Keys == db.entries.Keys && Settled(db).ledger == db.ledger
  {
  }

  lemma WriteRefinesAt(cfg: Config, plan: Plan, db: Db, issued: set<string>, id: string, c: Change, other: string)
    requires cfg.Valid() && GoodDb(cfg, plan, db, issued) && id in db.entries && other in db.entries
    requires Settled(db).entries[id] == db.entries[id]
    ensures Settled(Write(db, id, c)).entries[other] == Settled(Write(Settled(db), id, c)).entries[other]
  {
    hide GoodDb, Settle, Commit;
    SettledRow(cfg, plan, db, issued, other);
  }

  lemma WriteRefines(cfg: Config, plan: Plan, db: Db, issued: set<string>, id: string, c: Change)
    requires cfg.Valid() && GoodDb(cfg, plan, db, issued) && id in db.entries
    requires Settled(db).entries[id] == db.entries[id]
    ensures Settled(Write(db, id, c)) == Settled(Write(Settled(db), id, c))
  {
    hide GoodDb, Settled, Commit;
    SettledShape(db);
    var left, right := Settled(Write(db, id, c)), Settled(Write(Settled(db), id, c));
    SettledShape(Write(db, id, c));
    SettledShape(Write(Settled(db), id, c));
    forall other | other in left.entries ensures left.entries[other] == right.entries[other] {
      WriteRefinesAt(cfg, plan, db, issued, id, c, other);
    }
    assert left.entries == right.entries;
  }

  lemma WrittenRefines(cfg: Config, plan: Plan, db: Db, issued: set<string>, id: string, r: Reply<Change>, r': Reply<Change>)
    requires cfg.Valid() && GoodDb(cfg, plan, db, issued) && id in db.entries
    requires (Settled(db).entries[id] == db.entries[id] && r == r') || SameOutcome(r, r')
    ensures Settled(After(db, Written(db, id, r))) == Settled(After(Settled(db), Written(Settled(db), id, r')))
  {
    hide GoodDb, Settle, Write;
    SettlingTwice(cfg, plan, db, issued);
    if r.Ok? { WriteRefines(cfg, plan, db, issued, id, r.value); }
  }

  lemma WrittenWithRefines<T>(cfg: Config, plan: Plan, db: Db, issued: set<string>, id: string,
                              r: Reply<(Change, T)>, r': Reply<(Change, T)>)
    requires cfg.Valid() && GoodDb(cfg, plan, db, issued) && id in db.entries
    requires (Settled(db).entries[id] == db.entries[id] && r == r') || SameOutcome(r, r')
    ensures Settled(After(db, WrittenWith(db, id, r))) == Settled(After(Settled(db), WrittenWith(Settled(db), id, r')))
  {
    hide GoodDb, Settle, Write;
    SettlingTwice(cfg, plan, db, issued);
    if r.Ok? { WriteRefines(cfg, plan, db, issued, id, r.value.0); }
  }

  lemma WorkerOperationsRefine(cfg: Config, plan: Plan, db: Db, issued: set<string>, op: Op)
    requires cfg.Valid() && GoodDb(cfg, plan, db, issued)
    requires op.OpRenew? || op.OpReserve? || op.OpPause? || op.OpRequeue? || op.OpRetry? || op.OpFinalize?
    ensures Settled(DbAfter(cfg, db, op)) == Settled(DbAfter(cfg, Settled(db), op))
  {
    hide GoodDb, Settled, Settle, Pending, Written, WrittenWith, IsBlank, SameOutcome, RenewChange, ReserveChange, PauseChange, RequeueChange, RetryChange,
      FinalizeChange;
    SettlingTwice(cfg, plan, db, issued);
    SettledShape(db);
    if op.id in db.entries {
      var id := op.id;
      var e, row := db.entries[id], Lookup(db.ledger, id);
      var s := Settled(db).entries[id];
      SettledRow(cfg, plan, db, issued, id);
      match op {
        case OpRenew(_, token, now) =>
          if Pending(e, row) { PendingRefusesTokens(cfg, id, e, row, token, now, "", "", "", None); }
          WrittenRefines(cfg, plan, db, issued, id, RenewChange(cfg, e, token, now), RenewChange(cfg, s, token, now));
        case OpReserve(_, token, now) =>
          if Pending(e, row) { PendingRefusesTokens(cfg, id, e, row, token, now, "", "", "", None); }
          WrittenWithRefines(cfg, plan, db, issued, id, ReserveChange(id, e, token, now), ReserveChange(id, s, token, now));
        case OpPause(_, checkpoint, token, now) =>
          if Pending(e, row) { PendingRefusesTokens(cfg, id, e, row, token, now, checkpoint, "", "", None); }
          WrittenRefines(cfg, plan, db, issued, id, PauseChange(e, checkpoint, token, now), PauseChange(s, checkpoint, token, now));
        case OpRequeue(_, token) =>
          if Pending(e, row) { PendingRefusesTokens(cfg, id, e, row, token, 0.0, "", "", "", None); }
          WrittenRefines(cfg, plan, db, issued, id, RequeueChange(e, token), RequeueChange(s, token));
        case OpRetry(_, token, now, reason) =>
          if Pending(e, row) { PendingRefusesTokens(cfg, id, e, row, token, now, "", reason, "", None); }
          WrittenWithRefines(cfg, plan, db, issued, id, RetryChange(cfg, e, token, now, reason), RetryChange(cfg, s, token, now, reason));
        case OpFinalize(_, artifact, token, now, snapshot) =>
          if Pending(e, row) { PendingRefusesTokens(cfg, id, e, row, token, now, "", "", artifact, snapshot); }
          WrittenRefines(cfg, plan, db, issued, id, FinalizeChange(id, e, artifact, token, now, snapshot),
                         FinalizeChange(id, s, artifact, token, now, snapshot));
      }
    }
  }

  lemma SenderOperationsRefine(cfg: Config, plan: Plan, db: Db, issued: set<string>, op: Op)
    requires cfg.Valid() && GoodDb(cfg, plan, db, issued)
    requires op.OpDelivered? || op.OpRenewDelivery? || op.OpReleaseDelivery? || op.OpRetryDelivery?
    ensures Settled(DbAfter(cfg, db, op)) == Settled(DbAfter(cfg, Settled(db), op))
  {
    hide GoodDb, Settled, Settle, Pending, Written, WrittenWith, SameOutcome, DeliveredChange, RenewDeliveryChange, ReleaseDeliveryChange, RetryDeliveryChange;
    SettlingTwice(cfg, plan, db, issued);
    SettledShape(db);
    if op.id in db.entries {
      var id := op.id;
      var e, row := db.entries[id], Lookup(db.ledger, id);
      var s := Settled(db).entries[id];
      SettledRow(cfg, plan, db, issued, id);
      match op {
        case OpDelivered(_, token, now) =>
          if Pending(e, row) { PendingRefusesTokens(cfg, id, e, row, token, now, "", "", "", None); }
          WrittenRefines(cfg, plan, db, issued, id, DeliveredChange(e, token, now), DeliveredChange(s, token, now));
        case OpRenewDelivery(_, token, now) =>
          if Pending(e, row) { PendingRefusesTokens(cfg, id, e, row, token, now, "", "", "", None); }
          WrittenRefines(cfg, plan, db, issued, id, RenewDeliveryChange(cfg, e, token, now), RenewDeliveryChange(cfg, s, token, now));
        case OpReleaseDelivery(_, token) =>
          if Pending(e, row) { PendingRefusesTokens(cfg, id, e, row, token, 0.0, "", "", "", None); }
          WrittenRefines(cfg, plan, db, issued, id, ReleaseDeliveryChange(e, token), ReleaseDeliveryChange(s, token));
        case OpRetryDelivery(_, token, now, reason) =>
          if Pending(e, row) { PendingRefusesTokens(cfg, id, e, row, token, now, "", reason, "", None); }
          WrittenWithRefines(cfg, plan, db, issued, id, RetryDeliveryChange(cfg, e, token, now, reason),
                             RetryDeliveryChange(cfg, s, token, now, reason));
      }
    }
  }

  // ---------------------------------------------------------------- claiming refines

  lemma ReclaimAndSettle(cfg: Config, plan: Plan, id: string, e: Entry, row: Option<DecisionRow>, issued: set<string>, now: Time)
    requires Healthy(cfg, plan, id, e, row, issued)
    requires row.Some? ==> id in plan && plan[id] == row.value.checkpoint
    ensures var s := Settle(e, row);
            && Settle(Commit(e, ReclaimChange(cfg, e, now)), row) == Settle(Commit(s, ReclaimChange(cfg, s, now)), row)
            && Settle(Commit(e, ReclaimDeliveryChange(cfg, e, now)), row) == Commit(s, ReclaimDeliveryChange(cfg, s, now))
  {
    SettlingGoodRows(cfg, plan, id, e, row, issued);
    hide Healthy;
    if Pending(e, row) {
      var s := Settle(e, row);
      assert Commit(e, Keep(e)) == e && Commit(s, Keep(s)) == s;
      assert ReclaimChange(cfg, e, now) == Keep(e) && ReclaimChange(cfg, s, now) == Keep(s);
      assert ReclaimDeliveryChange(cfg, e, now) == Keep(e) && ReclaimDeliveryChange(cfg, s, now) == Keep(s);
    } else {
      ReclaimLeavesPauses(cfg, e, row, now);
    }
  }

  lemma ReclaimLeavesPauses(cfg: Config, e: Entry, row: Option<DecisionRow>, now: Time)
    requires !Pending(e, row) && (e.delivery.Some? ==> e.job.status == Completed)
    ensures Settle(Commit(e, ReclaimDeliveryChange(cfg, e, now)), row) == Commit(e, ReclaimDeliveryChange(cfg, e, now))
  {
    if e.delivery.None? { assert Commit(e, Keep(e)) == e; }
  }

  predicate SettleAlike(a: Db, b: Db, id: string) {
    id in a.entries && id in b.entries && Settle(a.entries[id], Lookup(a.ledger, id)) == Settle(b.entries[id], Lookup(b.ledger, id))
  }

  lemma RowsSettleAlike(a: Db, b: Db)
    requires a.ledger == b.ledger && a.entries.Keys == b.entries.Keys
    requires forall id | id in a.entries :: SettleAlike(a, b, id)
    ensures Settled(a) == Settled(b)
  {
    hide Settle;
    forall id | id in a.entries ensures Settled(a).entries[id] == Settled(b).entries[id] {
      assert SettleAlike(a, b, id);
    }
    assert Settled(a).entries == Settled(b).entries;
  }

  lemma ReclaimSettlesAlike(cfg: Config, plan: Plan, db: Db, issued: set<string>, now: Time, id: string)
    requires cfg.Valid() && GoodDb(cfg, plan, db, issued) && id in db.entries
    ensures SettleAlike(db.(entries := ReclaimAll(cfg, db.entries, now)),
                        Settled(db).(entries := ReclaimAll(cfg, Settled(db).entries, now)), id)
  {
    EntryIsHealthy(cfg, plan, db, issued, id);
    ReclaimAndSettle(cfg, plan, id, db.entries[id], Lookup(db.ledger, id), issued, now);
    hide GoodDb, Healthy, Settle, Commit, ReclaimChange, ReclaimDeliveryChange;
  }

  lemma SettledIsSameOnceReady(cfg: Config, plan: Plan, db: Db, issued: set<string>, now: Time)
    requires cfg.Valid() && GoodDb(cfg, plan, db, issued)
    ensures SameOnceReady(cfg, db, Settled(db), now)
  {
    var ra := db.(entries := ReclaimAll(cfg, db.entries, now));
    var rs := Settled(db).(entries := ReclaimAll(cfg, Settled(db).entries, now));
    hide GoodDb, Settled, SettleAlike, Reconcilable, ReconcileAll, Commit, ReclaimChange;
    ReadyIsGood(cfg, plan, db, issued, now);
    SettledIsGood(cfg, plan, db, issued);
    ReadyIsGood(cfg, plan, Settled(db), issued, now);
    SettledShape(db);
    forall id | id in ra.entries ensures SettleAlike(ra, rs, id) {
      ReclaimSettlesAlike(cfg, plan, db, issued, now, id);
    }
    RowsSettleAlike(ra, rs);
    SettledIsReconciled(ra);
    SettledIsReconciled(rs);
  }

  /** A claim does not care whether the decisions it depends on were mirrored before. */
  lemma ClaimNextRefines(cfg: Config, plan: Plan, db: Db, issued: set<string>, now: Time, token: string)
    requires cfg.Valid() && GoodDb(cfg, plan, db, issued)
    ensures ClaimNext(cfg, db, now, token) == ClaimNext(cfg, Settled(db), now, token)
  {
    hide ClaimNext, SameOnceReady, GoodDb, Settled;
    SettledIsSameOnceReady(cfg, plan, db, issued, now);
    SameOnceReadySameClaim(cfg, db, Settled(db), now, token);
  }

  lemma ReclaimDeliveryRefinesAt(cfg: Config, plan: Plan, db: Db, issued: set<string>, now: Time, id: string)
    requires cfg.Valid() && GoodDb(cfg, plan, db, issued) && id in db.entries
    ensures Settled(db.(entries := ReclaimDeliveries(cfg, db.entries, now))).entries[id]
         == ReclaimDeliveries(cfg, Settled(db).entries, now)[id]
  {
    EntryIsHealthy(cfg, plan, db, issued, id);
    ReclaimAndSettle(cfg, plan, id, db.entries[id], Lookup(db.ledger, id), issued, now);
    hide GoodDb, Healthy, Settle, Commit, ReclaimChange, ReclaimDeliveryChange;
  }

  lemma ReclaimDeliveriesRefines(cfg: Config, plan: Plan, db: Db, issued: set<string>, now: Time)
    requires cfg.Valid() && GoodDb(cfg, plan, db, issued)
    ensures Settled(db.(entries := ReclaimDeliveries(cfg, db.entries, now))).entries
         == ReclaimDeliveries(cfg, Settled(db).entries, now)
  {
    hide GoodDb, Settle, ReclaimDeliveryChange, Commit;
    var left := Settled(db.(entries := ReclaimDeliveries(cfg, db.entries, now))).entries;
    var right := ReclaimDeliveries(cfg, Settled(db).entries, now);
    forall id | id in db.entries ensures left[id] == right[id] {
      ReclaimDeliveryRefinesAt(cfg, plan, db, issued, now, id);
    }
    assert left == right;
  }

  lemma SettlingKeepsTheFirstDelivery(db: Db, now: Time)
    requires Positioned(db.entries) && Positioned(Settled(db).entries)
    ensures FirstDelivery(db.entries, now) == FirstDelivery(Settled(db).entries, now)
  {
    hide Settle;
    var settled := Settled(db).entries;
    forall id | id in db.entries
      ensures SameIdentity(db.entries[id].job, settled[id].job) && settled[id].delivery == db.entries[id].delivery
    {
      SettlingIsQuiet(db.entries[id], Lookup(db.ledger, id));
    }
    hide Positioned;
    if id :| IsFirstDelivery(db.entries, now, id) {
      FirstDeliveryIsUnique(db.entries, now, id);
      assert IsFirstDelivery(settled, now, id);
      FirstDeliveryIsUnique(settled, now, id);
    } else if id :| IsFirstDelivery(settled, now, id) {
      assert IsFirstDelivery(db.entries, now, id);
    }
  }

  lemma ClaimDeliveryRefines(cfg: Config, plan: Plan, db: Db, issued: set<string>, now: Time, token: string)
    requires cfg.Valid() && GoodDb(cfg, plan, db, issued)
    ensures Settled(After(db, ClaimDelivery(cfg, db, now, token))) == Settled(After(Settled(db), ClaimDelivery(cfg, Settled(db), now, token)))
  {
    hide GoodDb, Settled, ReclaimDeliveries, FirstDelivery, ClaimDeliveryChange, Write, Positioned;
    var ready := db.(entries := ReclaimDeliveries(cfg, db.entries, now));
    ReclaimDeliveriesRefines(cfg, plan, db, issued, now);
    ReclaimDeliveriesKeepsGood(cfg, plan, db, issued, now);
    SettledIsGood(cfg, plan, ready, issued);
    GoodIsPositioned(cfg, plan, ready, issued);
    GoodIsPositioned(cfg, plan, Settled(ready), issued);
    SettledShape(db);
    SettledShape(ready);
    SettlingTwice(cfg, plan, ready, issued);
    SettlingKeepsTheFirstDelivery(ready, now);
    assert Settled(db).(entries := ReclaimDeliveries(cfg, Settled(db).entries, now)) == Settled(ready);
    var first := FirstDelivery(ready.entries, now);
    if first.Some? {
      var id := first.value;
      DeliverableIsSettled(cfg, plan, ready, issued, now, id);
      WriteRefines(cfg, plan, ready, issued, id, ClaimDeliveryChange(cfg, ready.entries[id], now, token));
    }
  }

  lemma GoodIsPositioned(cfg: Config, plan: Plan, db: Db, issued: set<string>)
    requires GoodDb(cfg, plan, db, issued)
    ensures Positioned(db.entries)
  {
    hide GoodEntry, Positioned, UniqueRequests, OneRunning, ExclusiveLab, AllIssued, GoodLedger;
  }

  lemma DeliverableIsSettled(cfg: Config, plan: Plan, db: Db, issued: set<string>, now: Time, id: string)
    requires cfg.Valid() && GoodDb(cfg, plan, db, issued) && FirstDelivery(db.entries, now) == Some(id)
    ensures id in db.entries && db.entries[id].delivery.Some? && Settled(db).entries[id] == db.entries[id]
  {
    assert IsFirstDelivery(db.entries, now, id);
    hide GoodDb, Settled, Settle;
    SettledRow(cfg, plan, db, issued, id);
  }

  // ---------------------------------------------------------------- creating and deciding refine

  lemma SettledRowSettlesAlike(cfg: Config, plan: Plan, db: Db, issued: set<string>, other: string, ledger: Ledger)
    requires cfg.Valid() && GoodDb(cfg, plan, db, issued) && other in db.entries
    requires other in db.ledger ==> other in ledger && ledger[other] == db.ledger[other]
    ensures Settle(db.entries[other], Lookup(ledger, other)) == Settle(Settled(db).entries[other], Lookup(ledger, other))
  {
    SettledRow(cfg, plan, db, issued, other);
    hide GoodDb, Settle;
  }

  lemma SettlingMatchesRequests(db: Db, owner: string, key: string)
    ensures Settled(db).entries.Keys == db.entries.Keys && |Settled(db).entries| == |db.entries|
    ensures forall prior | prior in db.entries ::
              SameRequest(Settled(db).entries[prior].job, owner, key) == SameRequest(db.entries[prior].job, owner, key)
  {
    hide Settle;
    SettledShape(db);
    assert |Settled(db).entries| == |Settled(db).entries.Keys| == |db.entries.Keys| == |db.entries|;
    forall prior | prior in db.entries
      ensures SameRequest(Settled(db).entries[prior].job, owner, key) == SameRequest(db.entries[prior].job, owner, key)
    {
      SettlingIsQuiet(db.entries[prior], Lookup(db.ledger, prior));
    }
  }

  lemma CreateRefines(cfg: Config, plan: Plan, db: Db, issued: set<string>, owner: string, family: string, key: string, id: string)
    requires cfg.Valid() && GoodDb(cfg, plan, db, issued) && id !in db.entries
    ensures Settled(After(db, Create(db, owner, family, key, id)))
         == Settled(After(Settled(db), Create(Settled(db), owner, family, key, id)))
  {
    hide GoodDb, Settle, SameRequest, NewJob, Append, Settled, SettleAlike;
    SettlingTwice(cfg, plan, db, issued);
    SettledShape(db);
    SettlingMatchesRequests(db, owner, key);
    if !exists prior :: prior in db.entries && SameRequest(db.entries[prior].job, owner, key) {
      var left, right := After(db, Create(db, owner, family, key, id)), After(Settled(db), Create(Settled(db), owner, family, key, id));
      var e := Entry(NewJob(|db.entries| + 1, owner, family, key), Append([], Some(InvestigationQueued)), None, None);
      assert left == db.(entries := db.entries[id := e]);
      assert right == Settled(db).(entries := Settled(db).entries[id := e]);
      forall other | other in left.entries ensures SettleAlike(left, right, other) {
        if other != id { SettledRowSettlesAlike(cfg, plan, db, issued, other, db.ledger); }
        SettleAlikeMeans(left, right, other);
      }
      RowsSettleAlike(left, right);
    }
  }

  lemma SettleAlikeMeans(a: Db, b: Db, id: string)
    requires id in a.entries && id in b.entries
    ensures SettleAlike(a, b, id) <==> Settle(a.entries[id], Lookup(a.ledger, id)) == Settle(b.entries[id], Lookup(b.ledger, id))
  {
    hide Settle;
  }

  lemma RecordingRefines(cfg: Config, plan: Plan, db: Db, issued: set<string>, id: string, row: DecisionRow)
    requires cfg.Valid() && GoodDb(cfg, plan, db, issued) && id !in db.ledger
    ensures Settled(db.(ledger := db.ledger[id := row])) == Settled(Settled(db).(ledger := db.ledger[id := row]))
  {
    hide GoodDb, Settle, Settled, SettleAlike;
    SettledShape(db);
    var left, right := db.(ledger := db.ledger[id := row]), Settled(db).(ledger := db.ledger[id := row]);
    forall other | other in left.entries ensures SettleAlike(left, right, other) {
      SettledRowSettlesAlike(cfg, plan, db, issued, other, left.ledger);
      SettleAlikeMeans(left, right, other);
    }
    RowsSettleAlike(left, right);
  }

  /** A decision that is not the first changes nothing: the job was never paused, or its rows
      already say what the ledger says. */
  lemma DecidingLateChangesNothing(cfg: Config, plan: Plan, db: Db, issued: set<string>, owner: string, id: string, d: OwnerDecision)
    requires cfg.Valid() && GoodDb(cfg, plan, db, issued)
    requires id in db.entries ==> db.entries[id].job.status != PausedApproval
    ensures After(db, Decide(db, owner, id, d)) == db
  {
    if id in db.entries { EntryIsHealthy(cfg, plan, db, issued, id); }
    hide GoodDb, Faithful, GoodJob, GoodDelivery, Commit, Show;
  }

  /** Deciding a pending job either repeats the ledger's decision, and mirrors it, or is refused. */
  lemma DecidingPendingMirrors(cfg: Config, plan: Plan, db: Db, issued: set<string>, owner: string, id: string, d: OwnerDecision)
    requires cfg.Valid() && GoodDb(cfg, plan, db, issued)
    requires id in db.entries && Pending(db.entries[id], Lookup(db.ledger, id))
    ensures var after := After(db, Decide(db, owner, id, d));
            && (after == db || after == db.(entries := db.entries[id := Settle(db.entries[id], Lookup(db.ledger, id))]))
            && Settled(after) == Settled(db)
            && Settled(DecideThenCrash(db, owner, id, d)) == Settled(db)
  {
    EntryIsHealthy(cfg, plan, db, issued, id);
    SettlingGoodRows(cfg, plan, id, db.entries[id], Lookup(db.ledger, id), issued);
    hide Healthy, GoodDb, Settle, Commit, Show, Settled;
    var after := After(db, Decide(db, owner, id, d));
    assert DecideThenCrash(db, owner, id, d) == db;
    if after != db {
      assert after == db.(entries := db.entries[id := Settle(db.entries[id], Lookup(db.ledger, id))]);
      hide Decide, DecideThenCrash, ReconcileChange;
      forall other | other in after.entries ensures SettleAlike(after, db, other) {}
      RowsSettleAlike(after, db);
    }
  }

  /** Deciding a paused job for the first time is recording the decision, crash or no crash. */
  lemma DecidingFirstRecords(cfg: Config, plan: Plan, db: Db, issued: set<string>, owner: string, id: string, d: OwnerDecision)
    requires cfg.Valid() && GoodDb(cfg, plan, db, issued) && d.Valid()
    requires id in db.entries && db.entries[id].job.status == PausedApproval && id !in db.ledger
    ensures var row := DecisionRow(db.entries[id].job.checkpoint.value, d);
            var told := if db.entries[id].job.owner == owner then db.(ledger := db.ledger[id := row]) else db;
            && Settled(After(db, Decide(db, owner, id, d))) == Settled(told)
            && Settled(DecideThenCrash(db, owner, id, d)) == Settled(told)
  {
    EntryIsHealthy(cfg, plan, db, issued, id);
    if db.entries[id].job.owner == owner {
      var row := DecisionRow(db.entries[id].job.checkpoint.value, d);
      var told := db.(ledger := db.ledger[id := row]);
      FirstLedgerRowKeepsGood(cfg, plan, db, issued, id, row);
      hide Healthy, GoodDb, Settle, Settled, Commit, Show;
      assert After(told, Decide(told, owner, id, d)) == After(db, Decide(db, owner, id, d));
      assert DecideThenCrash(db, owner, id, d) == told;
      hide Decide, DecideThenCrash;
      DecidingPendingMirrors(cfg, plan, told, issued, owner, id, d);
    }
  }

  lemma DecideRefines(cfg: Config, plan: Plan, db: Db, issued: set<string>, owner: string, id: string, d: OwnerDecision)
    requires cfg.Valid() && GoodDb(cfg, plan, db, issued) && d.Valid()
    ensures var abstractly := Settled(After(Settled(db), Decide(Settled(db), owner, id, d)));
            && Settled(After(db, Decide(db, owner, id, d))) == abstractly
            && Settled(DecideThenCrash(db, owner, id, d)) == abstractly
  {
    hide GoodDb, Settled, Settle, Decide, DecideThenCrash;
    SettledIsGood(cfg, plan, db, issued);
    SettlingTwice(cfg, plan, db, issued);
    SettledShape(db);
    if id !in db.entries {
      DecidingLateChangesNothing(cfg, plan, db, issued, owner, id, d);
      DecidingLateChangesNothing(cfg, plan, Settled(db), issued, owner, id, d);
      CrashedUnchanged(db, owner, id, d);
    } else {
      SettledRow(cfg, plan, db, issued, id);
      if db.entries[id].job.status != PausedApproval {
        DecidingLateChangesNothing(cfg, plan, db, issued, owner, id, d);
        DecidingLateChangesNothing(cfg, plan, Settled(db), issued, owner, id, d);
        CrashedUnchanged(db, owner, id, d);
      } else if id in db.ledger {
        DecidingPendingMirrors(cfg, plan, db, issued, owner, id, d);
        DecidingLateChangesNothing(cfg, plan, Settled(db), issued, owner, id, d);
      } else {
        assert db.entries[id].job.checkpoint.Some? by { EntryIsHealthy(cfg, plan, db, issued, id); }
        var row := DecisionRow(db.entries[id].job.checkpoint.value, d);
        DecidingFirstRecords(cfg, plan, db, issued, owner, id, d);
        DecidingFirstRecords(cfg, plan, Settled(db), issued, owner, id, d);
        RecordingRefines(cfg, plan, db, issued, id, row);
      }
    }
  }

  lemma CrashedUnchanged(db: Db, owner: string, id: string, d: OwnerDecision)
    requires After(db, Decide(db, owner, id, d)) == db
    ensures DecideThenCrash(db, owner, id, d) == db
  {
    hide Decide;
  }

  // ---------------------------------------------------------------- whole runs

  /** The same operation with no crash in it. */
  function Uncrashed(op: Op): Op {
    match op
    case OpDecideThenCrash(owner, id, d) => OpDecide(owner, id, d)
    case _ => op
  }

  function UncrashedAll(ops: seq<Op>): seq<Op> {
    if ops == [] then [] else [Uncrashed(ops[0])] + UncrashedAll(ops[1..])
  }

  /** Every step of the two databases, a crash included, is one step of the settled database. */
  lemma StepRefines(cfg: Config, plan: Plan, w: World, op: Op)
    requires Good(cfg, plan, w) && Legal(plan, w, op)
    ensures Settled(DbAfter(cfg, w.db, op)) == Settled(DbAfter(cfg, Settled(w.db), Uncrashed(op)))
  {
    hide GoodDb, Settled, Decide, DecideThenCrash, Create, ClaimNext, ClaimDelivery, Renew, Reserve, Pause, Requeue, Retry, Finalize,
      MarkDelivered, RenewDelivery, ReleaseDelivery, RetryDelivery, IsBlank;
    SettlingTwice(cfg, plan, w.db, w.issued);
    match op {
      case OpCreate(owner, family, key, id) => CreateRefines(cfg, plan, w.db, w.issued, owner, family, key, id);
      case OpDecide(owner, id, d) => DecideRefines(cfg, plan, w.db, w.issued, owner, id, d);
      case OpDecideThenCrash(owner, id, d) => DecideRefines(cfg, plan, w.db, w.issued, owner, id, d);
      case OpCliRecord(id, row) =>
        SettledShape(w.db);
        if id !in w.db.ledger { RecordingRefines(cfg, plan, w.db, w.issued, id, row); }
      case OpCliRetry(_, _) =>
      case OpResume(_, _) =>
      case OpClaimNext(now, token) =>
        ClaimNextRefines(cfg, plan, w.db, w.issued, now, token);
        ClaimNextIsSafe(cfg, plan, w.db, w.issued, now, token);
      case OpClaimDelivery(now, token) => ClaimDeliveryRefines(cfg, plan, w.db, w.issued, now, token);
      case _ =>
        if op.OpDelivered? || op.OpRenewDelivery? || op.OpReleaseDelivery? || op.OpRetryDelivery? {
          SenderOperationsRefine(cfg, plan, w.db, w.issued, op);
        } else {
          WorkerOperationsRefine(cfg, plan, w.db, w.issued, op);
        }
    }
  }

  /** The two worlds differ at most in decisions not mirrored yet. */
  ghost predicate Alike(a: World, b: World) {
    && Settled(a.db) == Settled(b.db)
    && a.issued == b.issued && a.authorized == b.authorized && a.resumed == b.resumed
  }

  lemma AlikeRows(a: Db, b: Db, id: string)
    requires Settled(a) == Settled(b)
    ensures id in a.entries <==> id in b.entries
    ensures a.ledger == b.ledger
    ensures id in a.entries ==>
              && (forall token :: Holds(a.entries[id].job, token) <==> Holds(b.entries[id].job, token))
              && a.entries[id].job.checkpoint == b.entries[id].job.checkpoint
              && (a.entries[id].job.status == Completed || b.entries[id].job.status == Completed ==> a.entries[id] == b.entries[id])
              && a.entries[id].job.owner == b.entries[id].job.owner
  {
    hide Settle;
    SettledShape(a);
    SettledShape(b);
    if id in a.entries {
      assert id in Settled(a).entries.Keys && id in Settled(b).entries.Keys;
      SettlingIsQuiet(a.entries[id], Lookup(a.ledger, id));
      SettlingIsQuiet(b.entries[id], Lookup(b.ledger, id));
      assert Settled(a).entries[id] == Settled(b).entries[id];
    } else {
      assert id !in Settled(a).entries.Keys;
    }
  }

  lemma LegalAlike(plan: Plan, a: World, b: World, op: Op)
    requires Alike(a, b) && Legal(plan, a, op)
    ensures Legal(plan, b, Uncrashed(op))
  {
    hide Settled, Holds;
    if op.OpCreate? || op.OpPause? {
      AlikeRows(a.db, b.db, op.id);
    }
  }

  lemma GrantedAlike(cfg: Config, plan: Plan, a: World, b: World, op: Op)
    requires Good(cfg, plan, a) && Good(cfg, plan, b) && Alike(a, b)
    ensures Granted(cfg, a, op) == Granted(cfg, b, Uncrashed(op))
  {
    hide GoodDb, Settled, ClaimNext;
    AlikeRows(a.db, b.db, "");
    if op.OpClaimNext? {
      ClaimNextRefines(cfg, plan, a.db, a.issued, op.now, op.token);
      ClaimNextRefines(cfg, plan, b.db, b.issued, op.now, op.token);
    }
  }

  lemma StepAlike(cfg: Config, plan: Plan, a: World, b: World, op: Op)
    requires Good(cfg, plan, a) && Good(cfg, plan, b) && Alike(a, b) && Legal(plan, a, op)
    ensures Legal(plan, b, Uncrashed(op)) && Alike(Step(cfg, a, op), Step(cfg, b, Uncrashed(op)))
  {
    hide Good, Legal, Settled, DbAfter, Granted;
    LegalAlike(plan, a, b, op);
    GrantedAlike(cfg, plan, a, b, op);
    StepRefines(cfg, plan, a, op);
    StepRefines(cfg, plan, b, Uncrashed(op));
    assert Uncrashed(Uncrashed(op)) == Uncrashed(op);
  }

  /** A run with crashes is matched, step for step, by the run in which every crashed decision
      completes: the latter is legal too, hands out the same claims and ends in a world that differs
      at most in decisions not mirrored yet. */
  lemma {:induction false} RunRefines(cfg: Config, plan: Plan, a: World, b: World, ops: seq<Op>)
    requires Good(cfg, plan, a) && Good(cfg, plan, b) && Alike(a, b) && LegalRun(cfg, plan, a, ops)
    ensures LegalRun(cfg, plan, b, UncrashedAll(ops))
    ensures Alike(Run(cfg, a, ops), Run(cfg, b, UncrashedAll(ops)))
    decreases |ops|
  {
    hide Good, Legal, Step, Alike;
    if ops != [] {
      var op := ops[0];
      StepAlike(cfg, plan, a, b, op);
      StepKeepsGood(cfg, plan, a, op);
      StepKeepsGood(cfg, plan, b, Uncrashed(op));
      RunRefines(cfg, plan, Step(cfg, a, op), Step(cfg, b, Uncrashed(op)), ops[1..]);
      assert UncrashedAll(ops)[0] == Uncrashed(op) && UncrashedAll(ops)[1..] == UncrashedAll(ops[1..]);
    }
  }

  lemma ReportsAlike(a: Db, b: Db, owner: string, id: string)
    requires Settled(a) == Settled(b)
    ensures Report(a, owner, id) == Report(b, owner, id)
  {
    hide Settled, OwnReport;
    AlikeRows(a, b, id);
  }

  lemma AlikeAnswers(cfg: Config, plan: Plan, a: World, b: World, now: Time, token: string, owner: string, id: string)
    requires Good(cfg, plan, a) && Good(cfg, plan, b) && Alike(a, b)
    ensures ClaimNext(cfg, a.db, now, token) == ClaimNext(cfg, b.db, now, token)
    ensures Report(a.db, owner, id) == Report(b.db, owner, id)
    ensures a.db.ledger == b.db.ledger
  {
    hide GoodDb, Settled, ClaimNext, Report;
    ClaimNextRefines(cfg, plan, a.db, a.issued, now, token);
    ClaimNextRefines(cfg, plan, b.db, b.issued, now, token);
    ReportsAlike(a.db, b.db, owner, id);
    AlikeRows(a.db, b.db, id);
  }

  lemma EmptyIsGood(cfg: Config, plan: Plan)
    requires cfg.Valid() && PlanNamed(plan)
    ensures Good(cfg, plan, EMPTY) && Alike(EMPTY, EMPTY)
  {
  }

  /** What a worker is handed and what an owner downloads after any legal run is what they would
      have got had no decision ever been cut off between its two commits. */
  lemma CrashesAreInvisible(cfg: Config, plan: Plan, ops: seq<Op>, now: Time, token: string, owner: string, id: string)
    requires cfg.Valid() && PlanNamed(plan) && LegalRun(cfg, plan, EMPTY, ops)
    ensures LegalRun(cfg, plan, EMPTY, UncrashedAll(ops))
    ensures var crashed, whole := Run(cfg, EMPTY, ops).db, Run(cfg, EMPTY, UncrashedAll(ops)).db;
            && ClaimNext(cfg, crashed, now, token) == ClaimNext(cfg, whole, now, token)
            && Report(crashed, owner, id) == Report(whole, owner, id)
            && crashed.ledger == whole.ledger
  {
    hide Run, LegalRun, Good, Alike, ClaimNext, Report, PlanNamed;
    EmptyIsGood(cfg, plan);
    RunRefines(cfg, plan, EMPTY, EMPTY, ops);
    RunKeepsGood(cfg, plan, EMPTY, ops);
    RunKeepsGood(cfg, plan, EMPTY, UncrashedAll(ops));
    AlikeAnswers(cfg, plan, Run(cfg, EMPTY, ops), Run(cfg, EMPTY, UncrashedAll(ops)), now, token, owner, id);
  }
}

/** How one job may evolve: what no operation, and so no run, can undo. */
module PlaneHistory {
  import opened Wrappers
  import opened Text
  import opened Decisions
  import opened ControlPlane
  import opened Timeline
  import opened PlaneRuns
  import opened PlaneSteps

  // ---------------------------------------------------------------- how one job may evolve

  /** Nothing ever touches these rows again: the investigation failed, its report was sent, or
      its delivery failed. */
  predicate Frozen(e: Entry) {
    e.job.failure.Some? || (e.delivery.Some? && (e.delivery.value.status == Sent || e.delivery.value.failure.Some?))
  }

  predicate KeepsToken(before: Option<string>, after: Option<string>, minted: set<string>) {
    after.None? || after == before || after.value in minted
  }

  predicate KeepsSome<T(==)>(before: Option<T>, after: Option<T>) {
    before.Some? ==> after == before
  }

  function DeliveryToken(e: Entry): Option<string> {
    if e.delivery.Some? then e.delivery.value.token else None
  }

  /** Identity, history, checkpoint, scenario and decision are written once; a claim token is the
      old one, gone, or newly minted. */
  ghost predicate Evolves(before: Entry, after: Entry, minted: set<string>) {
    && SameIdentity(before.job, after.job)
    && before.timeline <= after.timeline
    && KeepsSome(before.job.checkpoint, after.job.checkpoint)
    && KeepsSome(before.job.incident, after.job.incident)
    && KeepsSome(before.mirror, after.mirror)
    && KeepsToken(before.job.token, after.job.token, minted)
    && KeepsToken(DeliveryToken(before), DeliveryToken(after), minted)
    && (before.job.status == Completed ==> after.job == before.job)
    && (Frozen(before) ==> after == before)
  }

  lemma EvolvesTransitively(a: Entry, b: Entry, c: Entry, minted: set<string>, minted': set<string>)
    requires Evolves(a, b, minted) && Evolves(b, c, minted')
    ensures Evolves(a, c, minted + minted')
  {
  }

  ghost predicate Later(w: World, w': World) {
    && w.issued <= w'.issued
    && (forall id | id in w.db.entries ::
          id in w'.db.entries && Evolves(w.db.entries[id], w'.db.entries[id], w'.issued - w.issued))
    && (forall id | id in w.db.ledger :: id in w'.db.ledger && w'.db.ledger[id] == w.db.ledger[id])
    && (forall id | id in w.resumed :: id in w'.resumed && w'.resumed[id] == w.resumed[id])
  }

  // ---------------------------------------------------------------- every change evolves a row

  /** What a change must leave alone for its row to evolve. */
  ghost predicate Gentle(e: Entry, c: Change, minted: set<string>) {
    && SameIdentity(e.job, c.job)
    && KeepsSome(e.job.checkpoint, c.job.checkpoint)
    && KeepsSome(e.job.incident, c.job.incident)
    && KeepsSome(e.mirror, c.mirror)
    && KeepsToken(e.job.token, c.job.token, minted)
    && KeepsToken(DeliveryToken(e), if c.delivery.Some? then c.delivery.value.token else None, minted)
    && (e.job.status == Completed ==> c.job == e.job)
    && (Frozen(e) ==> c == Keep(e))
  }

  lemma GentleChangeEvolves(e: Entry, c: Change, minted: set<string>)
    requires Gentle(e, c, minted)
    ensures Evolves(e, Commit(e, c), minted)
  {
  }

  /** The part of `GoodEntry` the columns alone show. */
  ghost predicate Tidy(e: Entry) {
    && (e.job.status == Running <==> e.job.token.Some?)
    && (e.job.failure.Some? ==> e.job.status == Queued)
    && (e.mirror.Some? ==> e.job.status != PausedApproval)
    && (e.delivery.Some? <==> e.job.status == Completed)
    && (e.delivery.Some? ==>
          (e.delivery.value.status == Sending <==> e.delivery.value.token.Some?)
          && (e.delivery.value.failure.Some? ==> e.delivery.value.status == Pending))
  }

  lemma GoodIsTidy(cfg: Config, plan: Plan, id: string, e: Entry, row: Option<DecisionRow>)
    requires GoodEntry(cfg, plan, id, e, row)
    ensures Tidy(e)
  {
  }

  lemma WorkerChangesAreGentle(cfg: Config, id: string, e: Entry, token: string, now: Time, reason: string,
                               artifact: string, snapshot: Option<string>)
    requires Tidy(e)
    ensures RenewChange(cfg, e, token, now).Ok? ==> Gentle(e, RenewChange(cfg, e, token, now).value, {})
    ensures ReserveChange(id, e, token, now).Ok? ==> Gentle(e, ReserveChange(id, e, token, now).value.0, {})
    ensures RequeueChange(e, token).Ok? ==> Gentle(e, RequeueChange(e, token).value, {})
    ensures RetryChange(cfg, e, token, now, reason).Ok? ==> Gentle(e, RetryChange(cfg, e, token, now, reason).value.0, {})
    ensures FinalizeChange(id, e, artifact, token, now, snapshot).Ok? ==>
              Gentle(e, FinalizeChange(id, e, artifact, token, now, snapshot).value, {})
    ensures Gentle(e, ReclaimChange(cfg, e, now), {})
  {
    hide RetryDelay, IncidentOf, OwnReport;
  }

  lemma PauseIsGentle(e: Entry, checkpoint: string, token: string, now: Time)
    requires Tidy(e) && (Holds(e.job, token) ==> e.job.checkpoint.None?)
    ensures PauseChange(e, checkpoint, token, now).Ok? ==> Gentle(e, PauseChange(e, checkpoint, token, now).value, {})
  {
  }

  lemma SenderChangesAreGentle(cfg: Config, e: Entry, token: string, now: Time, reason: string)
    requires Tidy(e)
    ensures DeliveredChange(e, token, now).Ok? ==> Gentle(e, DeliveredChange(e, token, now).value, {})
    ensures RenewDeliveryChange(cfg, e, token, now).Ok? ==> Gentle(e, RenewDeliveryChange(cfg, e, token, now).value, {})
    ensures ReleaseDeliveryChange(e, token).Ok? ==> Gentle(e, ReleaseDeliveryChange(e, token).value, {})
    ensures RetryDeliveryChange(cfg, e, token, now, reason).Ok? ==>
              Gentle(e, RetryDeliveryChange(cfg, e, token, now, reason).value.0, {})
    ensures Gentle(e, ReclaimDeliveryChange(cfg, e, now), {})
  {
    hide RetryDelay;
  }

  lemma DecisionChangesAreGentle(e: Entry, row: Option<DecisionRow>)
    requires Tidy(e)
    ensures ReconcileChange(e, row).Ok? ==> Gentle(e, ReconcileChange(e, row).value, {})
  {
  }

  lemma ClaimsAreGentle(cfg: Config, e: Entry, now: Time, token: string)
    requires Tidy(e)
    ensures Claimable(e.job, now) ==> Gentle(e, ClaimChange(cfg, e, now, token), {token})
    ensures Deliverable(e, now) ==> Gentle(e, ClaimDeliveryChange(cfg, e, now, token), {token})
  {
  }

  // ---------------------------------------------------------------- every operation evolves every row

  lemma WrittenEvolves(db: Db, id: string, r: Reply<Change>)
    requires id in db.entries && (r.Ok? ==> Gentle(db.entries[id], r.value, {}))
    ensures id in After(db, Written(db, id, r)).entries
    ensures Evolves(db.entries[id], After(db, Written(db, id, r)).entries[id], {})
  {
    Unmoved(db.entries[id]);
    if r.Ok? { GentleChangeEvolves(db.entries[id], r.value, {}); }
    hide Evolves, Gentle, Commit;
  }

  lemma WrittenWithEvolves<T>(db: Db, id: string, r: Reply<(Change, T)>)
    requires id in db.entries && (r.Ok? ==> Gentle(db.entries[id], r.value.0, {}))
    ensures id in After(db, WrittenWith(db, id, r)).entries
    ensures Evolves(db.entries[id], After(db, WrittenWith(db, id, r)).entries[id], {})
  {
    Unmoved(db.entries[id]);
    if r.Ok? { GentleChangeEvolves(db.entries[id], r.value.0, {}); }
    hide Evolves, Gentle, Commit;
  }

  lemma RowChangeEvolves(cfg: Config, plan: Plan, w: World, op: Op, e: Entry)
    requires Tidy(e) && Legal(plan, w, op)
    requires op.OpRenew? || op.OpReserve? || op.OpPause? || op.OpRequeue? || op.OpRetry? || op.OpFinalize?
    requires op.id in w.db.entries && w.db.entries[op.id] == e
    ensures op.id in DbAfter(cfg, w.db, op).entries && Evolves(e, DbAfter(cfg, w.db, op).entries[op.id], {})
  {
    hide Tidy, Evolves, Gentle, RenewChange, ReserveChange, PauseChange, RequeueChange, RetryChange, FinalizeChange, Written, WrittenWith, IsBlank, Holds;
    Unmoved(e);
    match op {
      case OpRenew(id, token, now) =>
        WorkerChangesAreGentle(cfg, id, e, token, now, "", "", None);
        WrittenEvolves(w.db, id, RenewChange(cfg, e, token, now));
      case OpReserve(id, token, now) =>
        WorkerChangesAreGentle(cfg, id, e, token, now, "", "", None);
        WrittenWithEvolves(w.db, id, ReserveChange(id, e, token, now));
      case OpPause(id, checkpoint, token, now) =>
        PauseIsGentle(e, checkpoint, token, now);
        WrittenEvolves(w.db, id, PauseChange(e, checkpoint, token, now));
      case OpRequeue(id, token) =>
        WorkerChangesAreGentle(cfg, id, e, token, 0.0, "", "", None);
        WrittenEvolves(w.db, id, RequeueChange(e, token));
      case OpRetry(id, token, now, reason) =>
        WorkerChangesAreGentle(cfg, id, e, token, now, reason, "", None);
        WrittenWithEvolves(w.db, id, RetryChange(cfg, e, token, now, reason));
      case OpFinalize(id, artifact, token, now, snapshot) =>
        WorkerChangesAreGentle(cfg, id, e, token, now, "", artifact, snapshot);
        WrittenEvolves(w.db, id, FinalizeChange(id, e, artifact, token, now, snapshot));
    }
  }

  lemma DeliveryChangeEvolves(cfg: Config, w: World, op: Op, e: Entry)
    requires Tidy(e)
    requires op.OpDelivered? || op.OpRenewDelivery? || op.OpReleaseDelivery? || op.OpRetryDelivery?
    requires op.id in w.db.entries && w.db.entries[op.id] == e
    ensures op.id in DbAfter(cfg, w.db, op).entries && Evolves(e, DbAfter(cfg, w.db, op).entries[op.id], {})
  {
    hide Tidy, Evolves, Gentle, DeliveredChange, RenewDeliveryChange, ReleaseDeliveryChange, RetryDeliveryChange, Written, WrittenWith;
    match op {
      case OpDelivered(id, token, now) =>
        SenderChangesAreGentle(cfg, e, token, now, "");
        WrittenEvolves(w.db, id, DeliveredChange(e, token, now));
      case OpRenewDelivery(id, token, now) =>
        SenderChangesAreGentle(cfg, e, token, now, "");
        WrittenEvolves(w.db, id, RenewDeliveryChange(cfg, e, token, now));
      case OpReleaseDelivery(id, token) =>
        SenderChangesAreGentle(cfg, e, token, 0.0, "");
        WrittenEvolves(w.db, id, ReleaseDeliveryChange(e, token));
      case OpRetryDelivery(id, token, now, reason) =>
        SenderChangesAreGentle(cfg, e, token, now, reason);
        WrittenWithEvolves(w.db, id, RetryDeliveryChange(cfg, e, token, now, reason));
    }
  }

  lemma EntryIsTidy(cfg: Config, plan: Plan, db: Db, issued: set<string>, id: string)
    requires GoodDb(cfg, plan, db, issued) && id in db.entries
    ensures Tidy(db.entries[id])
  {
    GoodIsTidy(cfg, plan, id, db.entries[id], Lookup(db.ledger, id));
  }

  lemma ReadyEvolves(cfg: Config, plan: Plan, db: Db, issued: set<string>, now: Time, id: string)
    requires cfg.Valid() && GoodDb(cfg, plan, db, issued) && id in db.entries
    ensures Reconcilable(db.(entries := ReclaimAll(cfg, db.entries, now)))
    ensures id in Ready(cfg, db, now).entries && Evolves(db.entries[id], Ready(cfg, db, now).entries[id], {})
  {
    ReadyIsGood(cfg, plan, db, issued, now);
    ReclaimKeepsGood(cfg, plan, db, issued, now);
    var reclaimed := db.(entries := ReclaimAll(cfg, db.entries, now));
    var e, row := db.entries[id], Lookup(db.ledger, id);
    var middle := reclaimed.entries[id];
    EntryIsTidy(cfg, plan, db, issued, id);
    EntryIsTidy(cfg, plan, reclaimed, issued, id);
    hide GoodDb, GoodEntry, ReconcileChange, ReclaimChange, Commit, Tidy, Gentle, Evolves, Faithful;
    WorkerChangesAreGentle(cfg, id, e, "", now, "", "", None);
    GentleChangeEvolves(e, ReclaimChange(cfg, e, now), {});
    DecisionChangesAreGentle(middle, row);
    GentleChangeEvolves(middle, ReconcileChange(middle, row).value, {});
    EvolvesTransitively(e, middle, Ready(cfg, db, now).entries[id], {}, {});
  }

  /** `claim_next` changes the rows it prepares, and starts the one it picks. */
  lemma ClaimNextEntries(cfg: Config, plan: Plan, db: Db, issued: set<string>, now: Time, token: string, id: string)
    requires cfg.Valid() && GoodDb(cfg, plan, db, issued) && id in db.entries
    ensures Reconcilable(db.(entries := ReclaimAll(cfg, db.entries, now)))
    ensures var ready, after := Ready(cfg, db, now), After(db, ClaimNext(cfg, db, now, token));
            && id in ready.entries && id in after.entries
            && after.entries[id] ==
                 if Choose(ready.entries, now) == Some(id) then Commit(ready.entries[id], ClaimChange(cfg, ready.entries[id], now, token))
                 else ready.entries[id]
  {
    hide GoodDb, GoodEntry, Commit, ClaimChange, ReclaimAll, ReconcileAll, Reconcilable, AnyRunning, Deferred, IsFirst,
      EnsureLedger, Evolves;
    ReadyEvolves(cfg, plan, db, issued, now, id);
    ClaimNextIsSafe(cfg, plan, db, issued, now, token);
  }

  lemma ClaimNextEvolves(cfg: Config, plan: Plan, db: Db, issued: set<string>, now: Time, token: string, id: string)
    requires cfg.Valid() && GoodDb(cfg, plan, db, issued) && id in db.entries
    ensures var after := After(db, ClaimNext(cfg, db, now, token));
            id in after.entries && Evolves(db.entries[id], after.entries[id], {token})
  {
    hide GoodDb, GoodEntry, Commit, ClaimChange, ReclaimAll, ReconcileAll, ClaimNext, Choose, Evolves, Gentle, Tidy, Ready, IsFirst, Reconcilable;
    ReadyEvolves(cfg, plan, db, issued, now, id);
    ClaimNextEntries(cfg, plan, db, issued, now, token, id);
    ReadyIsGood(cfg, plan, db, issued, now);
    var ready := Ready(cfg, db, now);
    var e, middle := db.entries[id], ready.entries[id];
    EntryIsTidy(cfg, plan, ready, issued, id);
    if Choose(ready.entries, now) == Some(id) {
      StartKeepsGood(cfg, plan, ready, issued, now, id, token);
      FirstIsClaimable(ready.entries, now, id);
      ClaimsAreGentle(cfg, middle, now, token);
      GentleChangeEvolves(middle, ClaimChange(cfg, middle, now, token), {token});
    } else {
      Unmoved(middle);
      MintingMore(middle, middle, {}, {token});
    }
    EvolvesTransitively(e, middle, After(db, ClaimNext(cfg, db, now, token)).entries[id], {}, {token});
    assert {} + {token} == {token};
  }

  lemma FirstIsClaimable(entries: Entries, now: Time, id: string)
    requires IsFirst(entries, now, id)
    ensures id in entries && Claimable(entries[id].job, now)
  {
  }

  lemma ClaimDeliveryEntries(cfg: Config, db: Db, now: Time, token: string, id: string)
    requires id in db.entries
    ensures var ready, after := ReclaimDeliveries(cfg, db.entries, now), After(db, ClaimDelivery(cfg, db, now, token));
            && id in ready && id in after.entries
            && ready[id] == Commit(db.entries[id], ReclaimDeliveryChange(cfg, db.entries[id], now))
            && (FirstDelivery(ready, now) == Some(id) ==> Deliverable(ready[id], now))
            && after.entries[id] ==
                 if FirstDelivery(ready, now) == Some(id) then Commit(ready[id], ClaimDeliveryChange(cfg, ready[id], now, token))
                 else ready[id]
  {
    hide Commit, ClaimDeliveryChange, ReclaimDeliveryChange;
  }

  lemma ClaimDeliveryEvolves(cfg: Config, plan: Plan, db: Db, issued: set<string>, now: Time, token: string, id: string)
    requires cfg.Valid() && GoodDb(cfg, plan, db, issued) && id in db.entries
    ensures var after := After(db, ClaimDelivery(cfg, db, now, token));
            id in after.entries && Evolves(db.entries[id], after.entries[id], {token})
  {
    hide GoodDb, GoodEntry, Commit, ClaimDeliveryChange, ReclaimDeliveryChange, ReclaimDeliveries, ClaimDelivery, FirstDelivery, Evolves, Gentle, Tidy;
    var e, ready := db.entries[id], ReclaimDeliveries(cfg, db.entries, now);
    ClaimDeliveryEntries(cfg, db, now, token, id);
    ReclaimDeliveriesKeepsGood(cfg, plan, db, issued, now);
    EntryIsTidy(cfg, plan, db, issued, id);
    EntryIsTidy(cfg, plan, db.(entries := ready), issued, id);
    SenderChangesAreGentle(cfg, e, token, now, "");
    GentleChangeEvolves(e, ReclaimDeliveryChange(cfg, e, now), {});
    if FirstDelivery(ready, now) == Some(id) {
      ClaimsAreGentle(cfg, ready[id], now, token);
      GentleChangeEvolves(ready[id], ClaimDeliveryChange(cfg, ready[id], now, token), {token});
    } else {
      Unmoved(ready[id]);
      MintingMore(ready[id], ready[id], {}, {token});
    }
    EvolvesTransitively(e, ready[id], After(db, ClaimDelivery(cfg, db, now, token)).entries[id], {}, {token});
    assert {} + {token} == {token};
  }

  lemma MintingMore(a: Entry, b: Entry, minted: set<string>, minted': set<string>)
    requires Evolves(a, b, minted) && minted <= minted'
    ensures Evolves(a, b, minted')
  {
  }

  lemma DecideEvolves(cfg: Config, plan: Plan, db: Db, issued: set<string>, owner: string, id: string, d: OwnerDecision)
    requires cfg.Valid() && GoodDb(cfg, plan, db, issued) && id in db.entries
    ensures var after := After(db, Decide(db, owner, id, d));
            id in after.entries && Evolves(db.entries[id], after.entries[id], {})
  {
    EntryIsHealthy(cfg, plan, db, issued, id);
    hide GoodDb, Replay, Observe, Numbered, NextOrdinal, GoodDelivery;
  }

  /** No step rewrites history. */
  lemma StepIsLater(cfg: Config, plan: Plan, w: World, op: Op)
    requires Good(cfg, plan, w) && Legal(plan, w, op)
    ensures Later(w, Step(cfg, w, op))
  {
    hide Good, Legal, DbAfter, Evolves, Granted;
    LedgerOnlyGrows(cfg, plan, w, op);
    TokensAreMinted(cfg, plan, w, op);
    var after := DbAfter(cfg, w.db, op);
    var minted := Step(cfg, w, op).issued - w.issued;
    forall id | id in w.db.entries
      ensures id in after.entries && Evolves(w.db.entries[id], after.entries[id], minted)
    {
      StepEvolves(cfg, plan, w, op, id);
    }
  }

  lemma TokensAreMinted(cfg: Config, plan: Plan, w: World, op: Op)
    requires Legal(plan, w, op)
    ensures Step(cfg, w, op).issued - w.issued == if op.OpClaimNext? || op.OpClaimDelivery? then {op.token} else {}
  {
    hide DbAfter, Granted;
  }

  lemma Unmoved(e: Entry)
    ensures Evolves(e, e, {})
  {
  }

  lemma GoodUnpacked(cfg: Config, plan: Plan, w: World, op: Op)
    requires Good(cfg, plan, w) && Legal(plan, w, op)
    ensures cfg.Valid() && GoodDb(cfg, plan, w.db, w.issued)
    ensures op.OpCreate? ==> op.id !in w.db.entries
  {
    hide GoodDb;
  }

  lemma StepEvolves(cfg: Config, plan: Plan, w: World, op: Op, id: string)
    requires Good(cfg, plan, w) && Legal(plan, w, op) && id in w.db.entries
    ensures id in DbAfter(cfg, w.db, op).entries
    ensures Evolves(w.db.entries[id], DbAfter(cfg, w.db, op).entries[id],
                    if op.OpClaimNext? || op.OpClaimDelivery? then {op.token} else {})
  {
    hide Good, Legal, GoodDb, Tidy, Evolves, ClaimNext, ClaimDelivery, Decide, Create, Commit, Renew, Reserve, Pause, Requeue, Retry,
      Finalize, MarkDelivered, RenewDelivery, ReleaseDelivery, RetryDelivery, CliRecord;
    GoodUnpacked(cfg, plan, w, op);
    EntryIsTidy(cfg, plan, w.db, w.issued, id);
    var e := w.db.entries[id];
    if op.OpClaimNext? {
      ClaimNextEvolves(cfg, plan, w.db, w.issued, op.now, op.token, id);
    } else if op.OpClaimDelivery? {
      ClaimDeliveryEvolves(cfg, plan, w.db, w.issued, op.now, op.token, id);
    } else if op.OpDecideThenCrash? || op.OpCliRecord? || op.OpCliRetry? || op.OpResume? || op.id != id || op.OpCreate? {
      OthersUnmoved(cfg, w, op, id);
      Unmoved(e);
    } else if op.OpDecide? {
      DecideEvolves(cfg, plan, w.db, w.issued, op.owner, id, op.decision);
    } else if op.OpDelivered? || op.OpRenewDelivery? || op.OpReleaseDelivery? || op.OpRetryDelivery? {
      hide DbAfter;
      DeliveryChangeEvolves(cfg, w, op, e);
    } else {
      hide DbAfter;
      RowChangeEvolves(cfg, plan, w, op, e);
    }
  }

  lemma OthersUnmoved(cfg: Config, w: World, op: Op, id: string)
    requires id in w.db.entries && !op.OpClaimNext? && !op.OpClaimDelivery?
    requires op.OpCreate? ==> op.id != id
    requires op.OpDecideThenCrash? || op.OpCliRecord? || op.OpCliRetry? || op.OpResume? || op.id != id
    ensures id in DbAfter(cfg, w.db, op).entries && DbAfter(cfg, w.db, op).entries[id] == w.db.entries[id]
  {
    hide Commit, RenewChange, ReserveChange, PauseChange, RequeueChange, RetryChange, FinalizeChange, DeliveredChange,
      RenewDeliveryChange, ReleaseDeliveryChange, RetryDeliveryChange, EnsureLedger;
  }

  lemma LaterTransitively(a: World, b: World, c: World)
    requires Later(a, b) && Later(b, c)
    ensures Later(a, c)
  {
    hide Evolves;
    forall id | id in a.db.entries
      ensures id in c.db.entries && Evolves(a.db.entries[id], c.db.entries[id], c.issued - a.issued)
    {
      EvolvesTransitively(a.db.entries[id], b.db.entries[id], c.db.entries[id], b.issued - a.issued, c.issued - b.issued);
      assert (b.issued - a.issued) + (c.issued - b.issued) == c.issued - a.issued;
    }
  }

  /** No run rewrites history. */
  lemma {:induction false} RunIsLater(cfg: Config, plan: Plan, w: World, ops: seq<Op>)
    requires Good(cfg, plan, w) && LegalRun(cfg, plan, w, ops)
    ensures Later(w, Run(cfg, w, ops))
    decreases |ops|
  {
    hide Good, Evolves, Step;
    if ops == [] {
      forall id | id in w.db.entries ensures Evolves(w.db.entries[id], w.db.entries[id], w.issued - w.issued) {
        Unmoved(w.db.entries[id]);
        assert w.issued - w.issued == {};
      }
    } else {
      hide Later;
      StepKeepsGood(cfg, plan, w, ops[0]);
      StepIsLater(cfg, plan, w, ops[0]);
      RunIsLater(cfg, plan, Step(cfg, w, ops[0]), ops[1..]);
      LaterTransitively(w, Step(cfg, w, ops[0]), Run(cfg, w, ops));
    }
  }
}

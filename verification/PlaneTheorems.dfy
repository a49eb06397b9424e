/** What every run of the control plane guarantees, from the empty database on. */
module PlaneTheorems {
  import opened Wrappers
  import opened Text
  import opened Decisions
  import opened ControlPlane
  import opened Timeline
  import opened PlaneRuns
  import opened PlaneSteps
  import opened PlaneHistory

  ghost predicate Reachable(cfg: Config, plan: Plan, w: World) {
    exists ops :: LegalRun(cfg, plan, EMPTY, ops) && Run(cfg, EMPTY, ops) == w
  }

  ghost predicate Setting(cfg: Config, plan: Plan) {
    cfg.Valid() && PlanNamed(plan)
  }

  lemma EveryReachableWorldIsGood(cfg: Config, plan: Plan, w: World)
    requires Setting(cfg, plan) && Reachable(cfg, plan, w)
    ensures Good(cfg, plan, w)
  {
    var ops :| LegalRun(cfg, plan, EMPTY, ops) && Run(cfg, EMPTY, ops) == w;
    RunKeepsGood(cfg, plan, EMPTY, ops);
  }

  // ---------------------------------------------------------------- the timeline tells the truth

  /** Every job's row can be recomputed from its gap-free timeline, and every claim a worker ever
      got is accounted for by it. */
  lemma RowsMatchTimelines(cfg: Config, plan: Plan, w: World, id: string)
    requires Setting(cfg, plan) && Reachable(cfg, plan, w) && id in w.db.entries
    ensures var e := w.db.entries[id];
            && Numbered(e.timeline)
            && Replay(cfg, e.timeline) == Some(AuditOf(e))
            && Count(e.timeline, Start) ==
                 e.job.attempts + Count(e.timeline, Pauses) + Count(e.timeline, Requeues)
                 + (if e.job.status == Completed then 1 else 0) + (if e.job.status == Running then 1 else 0)
            && e.job.attempts <= cfg.maxReplay
            && (e.job.attempts == cfg.maxReplay <==> e.job.failure.Some?)
  {
    EveryReachableWorldIsGood(cfg, plan, w);
    EntryIsHealthy(cfg, plan, w.db, w.issued, id);
    ClaimsAreConserved(cfg, w.db.entries[id].timeline);
  }

  // ---------------------------------------------------------------- one worker, one scenario

  /** At most one job runs, a claim is exactly a token with an expiry, and at most one job that
      has not been paused holds the lab's scenario; a job without one runs only when nobody does. */
  lemma OneWorkerOneScenario(cfg: Config, plan: Plan, w: World, a: string, b: string)
    requires Setting(cfg, plan) && Reachable(cfg, plan, w) && a in w.db.entries && b in w.db.entries
    ensures var x, y := w.db.entries[a].job, w.db.entries[b].job;
            && (x.status == Running <==> x.token.Some? && x.expiresAt.Some?)
            && (x.status == Running && y.status == Running ==> a == b)
            && (HoldsLab(x) && HoldsLab(y) ==> a == b)
            && (x.status == Running && x.incident.None? ==> !HoldsLab(y))
            && (x.incident.Some? && y.incident.Some? && x.incident == y.incident ==> a == b)
  {
    EveryReachableWorldIsGood(cfg, plan, w);
    EntryIsHealthy(cfg, plan, w.db, w.issued, a);
    EntryIsHealthy(cfg, plan, w.db, w.issued, b);
    if IncidentOf(a) == IncidentOf(b) {
      assert IncidentOf(a)[8..] == a && IncidentOf(b)[8..] == b;
    }
  }

  // ---------------------------------------------------------------- no idle worker

  lemma {:induction false} EarliestJob(entries: Entries, ids: set<string>) returns (id: string)
    requires ids != {} && forall other | other in ids :: other in entries
    ensures id in ids && forall other | other in ids :: NoLater(entries[id].job, entries[other].job)
    decreases |ids|
  {
    var one :| one in ids;
    var rest := ids - {one};
    if rest == {} {
      assert ids == {one};
      id := one;
    } else {
      var best := EarliestJob(entries, rest);
      id := if NoLater(entries[one].job, entries[best].job) then one else best;
    }
  }

  lemma SomeJobIsFirst(entries: Entries, now: Time, candidate: string)
    requires candidate in entries && Claimable(entries[candidate].job, now)
    ensures First(entries, now).Some?
  {
    var ids := set id | id in entries && Claimable(entries[id].job, now);
    assert candidate in ids;
    var id := EarliestJob(entries, ids);
    assert IsFirst(entries, now, id);
  }

  /** A poll hands out a job exactly when nothing runs, nobody who holds the scenario waits out a
      backoff, and some job is due; a decision still unmirrored counts, and so does a lease that has
      just run out. */
  lemma PollServesExactlyWhenItMay(cfg: Config, plan: Plan, w: World, now: Time, token: string)
    requires Setting(cfg, plan) && Reachable(cfg, plan, w)
    ensures Reconcilable(w.db.(entries := ReclaimAll(cfg, w.db.entries, now)))
    ensures var r, ready := ClaimNext(cfg, w.db, now, token), Ready(cfg, w.db, now).entries;
            && r.Ok?
            && (r.value.1.Some? <==>
                  && !AnyRunning(ready) && !Deferred(ready, now)
                  && exists id :: id in ready && Claimable(ready[id].job, now))
            && (r.value.1.Some? ==> IsFirst(ready, now, r.value.1.value.id))
  {
    hide Good, GoodDb, Reachable, Setting, ReclaimAll, ReconcileAll, Reconcilable, AnyRunning, Deferred, First, Claimable, IsFirst,
      ClaimNext, Ready;
    EveryReachableWorldIsGood(cfg, plan, w);
    GoodAsRows(cfg, plan, w);
    ReadyIsGood(cfg, plan, w.db, w.issued, now);
    ClaimNextIsSafe(cfg, plan, w.db, w.issued, now, token);
    ClaimFollowsChoice(cfg, w.db, now, token);
    var ready := Ready(cfg, w.db, now).entries;
    if id :| id in ready && Claimable(ready[id].job, now) {
      SomeJobIsFirst(ready, now, id);
    }
    FirstIsClaimableOne(ready, now);
  }

  /** Queued, not failed, and its time has come. */
  predicate DueByColumns(job: Job, now: Time) {
    job.status == Queued && job.failure.None? && job.availableAt <= now
  }

  /** What a poll does, on the columns: it serves exactly when no job is RUNNING, no queued job that
      holds a scenario still waits, and some queued job is due. The job it hands out holds a scenario
      if any due job does; among those alike it has been available longest; among ties it was created
      first. */
  lemma PollServesInOrder(cfg: Config, plan: Plan, w: World, now: Time, token: string)
    requires Setting(cfg, plan) && Reachable(cfg, plan, w)
    requires Reconcilable(w.db.(entries := ReclaimAll(cfg, w.db.entries, now)))
    ensures var r, ready := ClaimNext(cfg, w.db, now, token), Ready(cfg, w.db, now).entries;
            && r.Ok?
            && (r.value.1.Some? <==>
                  && (forall id | id in ready :: ready[id].job.status != Running)
                  && (forall id | id in ready && ready[id].job.status == Queued && ready[id].job.failure.None?
                                  && ready[id].job.incident.Some? :: ready[id].job.availableAt <= now)
                  && exists id :: id in ready && DueByColumns(ready[id].job, now))
            && (r.value.1.Some? ==>
                  var id := r.value.1.value.id;
                  && id in ready && DueByColumns(ready[id].job, now)
                  && forall other | other in ready && other != id && DueByColumns(ready[other].job, now) ::
                       var first, next := ready[id].job, ready[other].job;
                       && (next.incident.Some? ==> first.incident.Some?)
                       && (next.incident.Some? == first.incident.Some? ==> first.availableAt <= next.availableAt)
                       && (next.incident.Some? == first.incident.Some? && first.availableAt == next.availableAt ==>
                             first.position < next.position))
  {
    PollServesExactlyWhenItMay(cfg, plan, w, now, token);
    var r, ready := ClaimNext(cfg, w.db, now, token), Ready(cfg, w.db, now).entries;
    EveryReachableWorldIsGood(cfg, plan, w);
    GoodAsRows(cfg, plan, w);
    ReadyIsGood(cfg, plan, w.db, w.issued, now);
    PositionsDiffer(cfg, plan, Ready(cfg, w.db, now), w.issued);
    assert forall id | id in ready :: Claimable(ready[id].job, now) <==> DueByColumns(ready[id].job, now);
    hide Good, GoodDb, Reachable, Setting, ReclaimAll, ReconcileAll, Reconcilable, ClaimNext, Ready, DueByColumns, Claimable;
    if r.value.1.Some? {
      var id := r.value.1.value.id;
      forall other | other in ready && other != id && DueByColumns(ready[other].job, now)
        ensures NoLater(ready[id].job, ready[other].job) && ready[id].job.position != ready[other].job.position
      {
      }
    }
  }

  lemma PositionsDiffer(cfg: Config, plan: Plan, db: Db, issued: set<string>)
    requires GoodDb(cfg, plan, db, issued)
    ensures forall a, b | a in db.entries && b in db.entries && a != b :: db.entries[a].job.position != db.entries[b].job.position
  {
    hide GoodEntry, OneRunning, ExclusiveLab, UniqueRequests, AllIssued, GoodLedger;
  }

  lemma GoodAsRows(cfg: Config, plan: Plan, w: World)
    requires Good(cfg, plan, w)
    ensures cfg.Valid() && GoodDb(cfg, plan, w.db, w.issued)
  {
    hide GoodDb;
  }

  lemma ClaimFollowsChoice(cfg: Config, db: Db, now: Time, token: string)
    requires Reconcilable(db.(entries := ReclaimAll(cfg, db.entries, now)))
    requires ClaimNext(cfg, db, now, token).Ok?
    ensures var claim, chosen := ClaimNext(cfg, db, now, token).value.1, Choose(Ready(cfg, db, now).entries, now);
            (claim.Some? <==> chosen.Some?) && (claim.Some? ==> Some(claim.value.id) == chosen)
  {
    hide ReclaimAll, ReconcileAll, Reconcilable, Choose, Write, ClaimChange, EnsureLedger;
  }

  lemma FirstIsClaimableOne(entries: Entries, now: Time)
    ensures First(entries, now).Some? ==>
              && IsFirst(entries, now, First(entries, now).value)
              && First(entries, now).value in entries && Claimable(entries[First(entries, now).value].job, now)
  {
  }

  // ---------------------------------------------------------------- fencing

  /** The job's claim is not, or no longer, the one `token` was handed out for. */
  predicate Lost(db: Db, id: string, token: string) {
    id in db.entries ==> db.entries[id].job.token != Some(token)
  }

  predicate DeliveryLost(db: Db, id: string, token: string) {
    id in db.entries ==> DeliveryToken(db.entries[id]) != Some(token)
  }

  predicate Refused<T>(r: Reply<T>) {
    r == Conflict || r == NotFound || r == Invalid
  }

  lemma LostClaimIsRefused(cfg: Config, db: Db, id: string, token: string, now: Time, checkpoint: string, reason: string,
                           artifact: string, snapshot: Option<string>)
    requires Lost(db, id, token)
    ensures Renew(cfg, db, id, token, now) == Conflict
    ensures Requeue(db, id, token) == Conflict
    ensures Refused(Reserve(db, id, token, now))
    ensures Refused(Pause(db, id, checkpoint, token, now))
    ensures Refused(Retry(cfg, db, id, token, now, reason))
    ensures Refused(Finalize(db, id, artifact, token, now, snapshot))
  {
    hide IsBlank, Commit;
  }

  lemma LostDeliveryIsRefused(cfg: Config, db: Db, id: string, token: string, now: Time, reason: string)
    requires DeliveryLost(db, id, token)
    ensures MarkDelivered(db, id, token, now) == Conflict
    ensures RenewDelivery(cfg, db, id, token, now) == Conflict
    ensures ReleaseDelivery(db, id, token) == Conflict
    ensures Refused(RetryDelivery(cfg, db, id, token, now, reason))
  {
    hide Commit;
  }

  /** Once a handed-out token is not the current one, no later run makes it current again: whatever
      everybody does in between, every operation that presents it is refused. */
  lemma LostClaimStaysLost(cfg: Config, plan: Plan, w: World, ops: seq<Op>, id: string, token: string,
                           now: Time, checkpoint: string, reason: string, artifact: string, snapshot: Option<string>)
    requires Good(cfg, plan, w) && LegalRun(cfg, plan, w, ops)
    requires id in w.db.entries && token in w.issued
    ensures var db := Run(cfg, w, ops).db;
            && (Lost(w.db, id, token) ==>
                  && Renew(cfg, db, id, token, now) == Conflict
                  && Requeue(db, id, token) == Conflict
                  && Refused(Reserve(db, id, token, now))
                  && Refused(Pause(db, id, checkpoint, token, now))
                  && Refused(Retry(cfg, db, id, token, now, reason))
                  && Refused(Finalize(db, id, artifact, token, now, snapshot)))
            && (DeliveryLost(w.db, id, token) ==>
                  && MarkDelivered(db, id, token, now) == Conflict
                  && RenewDelivery(cfg, db, id, token, now) == Conflict
                  && ReleaseDelivery(db, id, token) == Conflict
                  && Refused(RetryDelivery(cfg, db, id, token, now, reason)))
  {
    RunIsLater(cfg, plan, w, ops);
    var db := Run(cfg, w, ops).db;
    assert Evolves(w.db.entries[id], db.entries[id], Run(cfg, w, ops).issued - w.issued);
    hide Good, LegalRun, Run, Renew, Requeue, Reserve, Pause, Retry, Finalize, MarkDelivered, RenewDelivery, ReleaseDelivery,
      RetryDelivery, Refused;
    if Lost(w.db, id, token) {
      LostClaimIsRefused(cfg, db, id, token, now, checkpoint, reason, artifact, snapshot);
    }
    if DeliveryLost(w.db, id, token) {
      LostDeliveryIsRefused(cfg, db, id, token, now, reason);
    }
  }

  // ---------------------------------------------------------------- the first decision wins

  /** The ledger's row for a thread, once written, is the decision for good: no run changes it, any
      accepted decision equals it, and so does everything that was ever handed to a worker, resumed
      into the graph or mirrored. */
  lemma FirstDecisionWins(cfg: Config, plan: Plan, w: World, ops: seq<Op>, id: string, owner: string, d: OwnerDecision)
    requires Good(cfg, plan, w) && LegalRun(cfg, plan, w, ops) && id in w.db.ledger
    ensures var w', first := Run(cfg, w, ops), w.db.ledger[id];
            && id in w'.db.ledger && w'.db.ledger[id] == first
            && (d.Valid() && Decide(w'.db, owner, id, d).Ok? ==> d == first.decision)
            && ((id, d) in w'.authorized ==> d == first.decision)
            && (id in w'.resumed ==> w'.resumed[id] == first.decision)
            && (id in w'.db.entries && w'.db.entries[id].mirror.Some? ==> w'.db.entries[id].mirror.value == first)
  {
    RunIsLater(cfg, plan, w, ops);
    RunKeepsGood(cfg, plan, w, ops);
    var w' := Run(cfg, w, ops);
    hide Run, LegalRun, Evolves;
    assert id in w'.db.ledger && w'.db.ledger[id] == w.db.ledger[id];
    if d.Valid() {
      DecideKeepsGood(cfg, plan, w'.db, w'.issued, owner, id, d);
    }
    if id in w'.db.entries {
      EntryIsHealthy(cfg, plan, w'.db, w'.issued, id);
    }
    hide GoodDb, Decide;
    assert (id, d) in w'.authorized ==> (id, d).0 in w'.db.ledger;
  }

  /** The rows a decision looks at, in a good database. */
  ghost predicate InStep(e: Entry, row: Option<DecisionRow>) {
    && (e.job.checkpoint.Some? ==> e.job.checkpoint.value != "")
    && (e.job.status == PausedApproval ==> e.job.checkpoint.Some?)
    && (e.mirror.Some? ==> e.mirror == row && e.job.checkpoint == Some(e.mirror.value.checkpoint))
    && (e.job.checkpoint.Some? ==> (e.mirror.None? <==> e.job.status == PausedApproval))
    && (row.Some? && e.job.checkpoint.Some? ==> row.value.checkpoint == e.job.checkpoint.value)
  }

  lemma RowsAreInStep(cfg: Config, plan: Plan, w: World, id: string)
    requires Good(cfg, plan, w) && id in w.db.entries
    ensures InStep(w.db.entries[id], Lookup(w.db.ledger, id))
  {
    EntryIsHealthy(cfg, plan, w.db, w.issued, id);
  }

  lemma DecidedBefore(db: Db, id: string, d: OwnerDecision)
    requires id in db.entries && InStep(db.entries[id], Lookup(db.ledger, id)) && db.entries[id].mirror.Some?
    ensures Decide(db, db.entries[id].job.owner, id, d)
         == if db.ledger[id].decision == d then Ok((db, View(id, Show(db.entries[id].job)))) else Conflict
  {
    hide Write;
    assert db.(ledger := db.ledger) == db;
  }

  /** What an accepted decision leaves behind. */
  ghost predicate Decides(db: Db, after: Db, id: string, row: DecisionRow)
    requires id in db.entries
  {
    && id in after.entries && after.ledger == db.ledger[id := row] && after.entries[id].mirror == Some(row)
    && after.entries[id].job == if db.entries[id].mirror.Some? then db.entries[id].job else db.entries[id].job.(status := Queued)
  }

  lemma NotDecidedBefore(db: Db, id: string, d: OwnerDecision)
    requires id in db.entries && InStep(db.entries[id], Lookup(db.ledger, id)) && db.entries[id].mirror.None?
    ensures var e := db.entries[id];
            var r := Decide(db, e.job.owner, id, d);
            if e.job.checkpoint.Some? && (id in db.ledger ==> db.ledger[id].decision == d) then
              r.Ok? && Decides(db, r.value.0, id, DecisionRow(e.job.checkpoint.value, d))
            else r == Conflict
  {
    hide Append;
    if id in db.ledger { assert db.ledger[id := db.ledger[id]] == db.ledger; }
  }

  lemma DecidingInStep(db: Db, id: string, d: OwnerDecision)
    requires id in db.entries && InStep(db.entries[id], Lookup(db.ledger, id))
    ensures var e := db.entries[id];
            var r := Decide(db, e.job.owner, id, d);
            if e.job.checkpoint.Some? && (id in db.ledger ==> db.ledger[id].decision == d) then
              r.Ok? && Decides(db, r.value.0, id, DecisionRow(e.job.checkpoint.value, d))
            else r == Conflict
  {
    hide Decide;
    if db.entries[id].mirror.Some? {
      DecidedBefore(db, id, d);
      assert db.ledger[id := db.ledger[id]] == db.ledger;
    } else {
      NotDecidedBefore(db, id, d);
    }
  }

  /** An owner's decision is accepted exactly when the job has paused and nobody recorded another one
      before; it is then in the ledger and mirrored, and the job is not paused any more. Any other
      decision of the owner is a conflict. */
  lemma DecisionsAreAcceptedExactlyWhen(cfg: Config, plan: Plan, w: World, id: string, d: OwnerDecision)
    requires Setting(cfg, plan) && Reachable(cfg, plan, w) && id in w.db.entries
    ensures var e := w.db.entries[id];
            var r := Decide(w.db, e.job.owner, id, d);
            if e.job.checkpoint.Some? && (id in w.db.ledger ==> w.db.ledger[id].decision == d) then
              r.Ok? && Decides(w.db, r.value.0, id, DecisionRow(e.job.checkpoint.value, d))
            else r == Conflict
  {
    hide *;
    EveryReachableWorldIsGood(cfg, plan, w);
    RowsAreInStep(cfg, plan, w, id);
    DecidingInStep(w.db, id, d);
  }

  /** A worker claim carries a decision exactly when its thread was paused, and it is the ledger's:
      the runner's "no owner decision" branch is unreachable, as is every integrity error of
      `claim_next`. */
  lemma ResumedClaimHasItsDecision(cfg: Config, plan: Plan, w: World, now: Time, token: string)
    requires Setting(cfg, plan) && Reachable(cfg, plan, w)
    ensures var r := ClaimNext(cfg, w.db, now, token);
            && r.Ok?
            && (r.value.1.Some? ==>
                  var claim := r.value.1.value;
                  && (claim.checkpoint.Some? <==> claim.decision.Some?)
                  && (claim.decision.Some? ==>
                        claim.id in w.db.ledger && w.db.ledger[claim.id] == DecisionRow(claim.checkpoint.value, claim.decision.value)))
  {
    EveryReachableWorldIsGood(cfg, plan, w);
    ClaimNextIsSafe(cfg, plan, w.db, w.issued, now, token);
    hide GoodDb, ClaimNext;
  }

  /** The same, read off the rows: a job that is queued or running after a pause has its decision. */
  lemma PausedOnceMeansDecided(cfg: Config, plan: Plan, w: World, id: string)
    requires Setting(cfg, plan) && Reachable(cfg, plan, w) && id in w.db.entries
    ensures var e := w.db.entries[id];
            e.job.checkpoint.Some? && e.job.status != PausedApproval ==>
              id in w.db.ledger && e.mirror == Some(w.db.ledger[id]) && w.db.ledger[id].checkpoint == e.job.checkpoint.value
  {
    EveryReachableWorldIsGood(cfg, plan, w);
    EntryIsHealthy(cfg, plan, w.db, w.issued, id);
  }

  // ---------------------------------------------------------------- completion and delivery

  /** A job is completed exactly when it has a delivery, which is addressed to its owner; then the
      owner, and only the owner, can download it. */
  lemma CompletedMeansDeliverable(cfg: Config, plan: Plan, w: World, owner: string, id: string)
    requires Setting(cfg, plan) && Reachable(cfg, plan, w) && id in w.db.entries
    ensures var e := w.db.entries[id];
            && (e.job.status == Completed <==> e.delivery.Some?)
            && (e.delivery.Some? ==> e.delivery.value.destination == e.job.owner)
            && (Report(w.db, owner, id).Ok? <==> owner == e.job.owner && e.job.status == Completed)
            && (Report(w.db, owner, id).Ok? ==> e.job.content == Some(Report(w.db, owner, id).value))
            && Report(w.db, owner, id) != Integrity
  {
    EveryReachableWorldIsGood(cfg, plan, w);
    EntryIsHealthy(cfg, plan, w.db, w.issued, id);
  }

  /** What an owner once downloaded is what everybody gets from then on: later downloads and every
      delivery carry the same bytes, to the same owner. */
  lemma ReportNeverChanges(cfg: Config, plan: Plan, w: World, ops: seq<Op>, owner: string, id: string, now: Time, token: string)
    requires Good(cfg, plan, w) && LegalRun(cfg, plan, w, ops)
    requires Report(w.db, owner, id).Ok?
    ensures var db := Run(cfg, w, ops).db;
            && Report(db, owner, id) == Report(w.db, owner, id)
            && (var r := ClaimDelivery(cfg, db, now, token);
                r.Ok? && r.value.1.Some? && r.value.1.value.id == id ==>
                  r.value.1.value.content == Some(Report(w.db, owner, id).value) && r.value.1.value.destination == owner)
  {
    RunIsLater(cfg, plan, w, ops);
    RunKeepsGood(cfg, plan, w, ops);
    var w' := Run(cfg, w, ops);
    assert Evolves(w.db.entries[id], w'.db.entries[id], w'.issued - w.issued);
    assert w'.db.entries[id].job == w.db.entries[id].job;
    EntryIsHealthy(cfg, plan, w'.db, w'.issued, id);
    hide Good, LegalRun, Run, ClaimDelivery;
    DeliveryClaimIsTheRow(cfg, plan, w'.db, w'.issued, now, token);
  }

  lemma DeliveryClaimIsTheRow(cfg: Config, plan: Plan, db: Db, issued: set<string>, now: Time, token: string)
    requires cfg.Valid() && GoodDb(cfg, plan, db, issued)
    ensures var r := ClaimDelivery(cfg, db, now, token);
            && r.Ok?
            && (r.value.1.Some? ==>
                  var claim := r.value.1.value;
                  && claim.id in db.entries
                  && claim.content == db.entries[claim.id].job.content
                  && claim.destination == db.entries[claim.id].job.owner
                  && db.entries[claim.id].job.status == Completed)
  {
    var ready := ReclaimDeliveries(cfg, db.entries, now);
    var first := FirstDelivery(ready, now);
    if first.Some? {
      ClaimDeliveryEntries(cfg, db, now, token, first.value);
      EntryIsHealthy(cfg, plan, db, issued, first.value);
      ReclaimLeavesTheJob(cfg, db.entries[first.value], now);
    }
    hide GoodDb, Commit, ReclaimDeliveryChange, ClaimDeliveryChange, ReclaimDeliveries;
  }

  lemma ReclaimLeavesTheJob(cfg: Config, e: Entry, now: Time)
    ensures var after := Commit(e, ReclaimDeliveryChange(cfg, e, now));
            && after.job == e.job
            && (after.delivery.Some? <==> e.delivery.Some?)
            && (e.delivery.Some? ==> after.delivery.value.destination == e.delivery.value.destination)
  {
  }

  /** A failed investigation, a sent report and a failed delivery are final: nothing touches any of
      the job's rows again, so SENT is never left and nothing is ever retried past its limit. */
  lemma FinalRowsAreFinal(cfg: Config, plan: Plan, w: World, ops: seq<Op>, id: string)
    requires Good(cfg, plan, w) && LegalRun(cfg, plan, w, ops)
    requires id in w.db.entries && Frozen(w.db.entries[id])
    ensures id in Run(cfg, w, ops).db.entries && Run(cfg, w, ops).db.entries[id] == w.db.entries[id]
  {
    RunIsLater(cfg, plan, w, ops);
    assert Evolves(w.db.entries[id], Run(cfg, w, ops).db.entries[id], Run(cfg, w, ops).issued - w.issued);
  }
}

/** Every run of the control plane: API calls, workers, delivery senders, the command line and
    crashes, interleaved in any order with any arguments. */
module PlaneRuns {
  import opened Wrappers
  import opened Text
  import opened Decisions
  import opened ControlPlane
  import opened Timeline

  /** The graph checkpoint at which a thread pauses. A resumed graph never pauses again
      (graph.py:2175), so there is at most one per thread. */
  type Plan = map<string, string>

  /** `issued`: every claim token ever handed out. `authorized`: the decisions a worker claim or
      the command line holds and may resume a thread with. `resumed`: the decision each thread's
      interrupt accepted, which its report publishes. */
  datatype World = World(
    db: Db,
    issued: set<string>,
    authorized: set<(string, OwnerDecision)>,
    resumed: map<string, OwnerDecision>)

  datatype Op =
    | OpCreate(owner: string, family: string, key: string, id: string)
    | OpDecide(owner: string, id: string, decision: OwnerDecision)
    | OpDecideThenCrash(owner: string, id: string, decision: OwnerDecision)
    | OpCliRecord(id: string, row: DecisionRow)
    | OpCliRetry(id: string, decision: OwnerDecision)
    | OpResume(id: string, decision: OwnerDecision)
    | OpClaimNext(now: Time, token: string)
    | OpRenew(id: string, token: string, now: Time)
    | OpReserve(id: string, token: string, now: Time)
    | OpPause(id: string, checkpoint: string, token: string, now: Time)
    | OpRequeue(id: string, token: string)
    | OpRetry(id: string, token: string, now: Time, reason: string)
    | OpFinalize(id: string, artifact: string, token: string, now: Time, snapshot: Option<string>)
    | OpClaimDelivery(now: Time, token: string)
    | OpDelivered(id: string, token: string, now: Time)
    | OpRenewDelivery(id: string, token: string, now: Time)
    | OpReleaseDelivery(id: string, token: string)
    | OpRetryDelivery(id: string, token: string, now: Time, reason: string)

  /** What the callers guarantee: ids and tokens are fresh uuids, decisions passed their
      validators, a thread is resumed only with a decision someone was handed, and only a run that
      was not resumed can report a pause (the runner's `checkpoint_id is None` branch). */
  ghost predicate Legal(plan: Plan, w: World, op: Op) {
    match op
    case OpCreate(_, _, _, id) => id !in w.db.entries
    case OpDecide(_, _, d) => d.Valid()
    case OpDecideThenCrash(_, _, d) => d.Valid()
    case OpCliRecord(id, row) => row.decision.Valid() && id in plan && plan[id] == row.checkpoint
    case OpResume(id, d) => (id, d) in w.authorized
    case OpClaimNext(_, token) => token !in w.issued
    case OpClaimDelivery(_, token) => token !in w.issued
    case OpPause(id, checkpoint, token, _) =>
      id in w.db.entries && Holds(w.db.entries[id].job, token) ==>
        w.db.entries[id].job.checkpoint.None? && id in plan && plan[id] == checkpoint
    case _ => true
  }

  ghost function DbAfter(cfg: Config, db: Db, op: Op): Db {
    match op
    case OpCreate(owner, family, key, id) => After(db, Create(db, owner, family, key, id))
    case OpDecide(owner, id, d) => After(db, Decide(db, owner, id, d))
    case OpDecideThenCrash(owner, id, d) => DecideThenCrash(db, owner, id, d)
    case OpCliRecord(id, row) => After(db, CliRecord(db, id, row))
    case OpCliRetry(_, _) => db
    case OpResume(_, _) => db
    case OpClaimNext(now, token) => After(db, ClaimNext(cfg, db, now, token))
    case OpRenew(id, token, now) => After(db, Renew(cfg, db, id, token, now))
    case OpReserve(id, token, now) => After(db, Reserve(db, id, token, now))
    case OpPause(id, checkpoint, token, now) => After(db, Pause(db, id, checkpoint, token, now))
    case OpRequeue(id, token) => After(db, Requeue(db, id, token))
    case OpRetry(id, token, now, reason) => After(db, Retry(cfg, db, id, token, now, reason))
    case OpFinalize(id, artifact, token, now, snapshot) => After(db, Finalize(db, id, artifact, token, now, snapshot))
    case OpClaimDelivery(now, token) => After(db, ClaimDelivery(cfg, db, now, token))
    case OpDelivered(id, token, now) => After(db, MarkDelivered(db, id, token, now))
    case OpRenewDelivery(id, token, now) => After(db, RenewDelivery(cfg, db, id, token, now))
    case OpReleaseDelivery(id, token) => After(db, ReleaseDelivery(db, id, token))
    case OpRetryDelivery(id, token, now, reason) => After(db, RetryDelivery(cfg, db, id, token, now, reason))
  }

  ghost function ClaimOf(cfg: Config, db: Db, now: Time, token: string): Option<WorkerClaim> {
    var r := ClaimNext(cfg, db, now, token);
    if r.Ok? then r.value.1 else None
  }

  ghost function Granted(cfg: Config, w: World, op: Op): set<(string, OwnerDecision)> {
    match op
    case OpClaimNext(now, token) =>
      var claim := ClaimOf(cfg, w.db, now, token);
      if claim.Some? && claim.value.decision.Some? then {(claim.value.id, claim.value.decision.value)} else {}
    case OpCliRecord(id, row) => if CliRecord(w.db, id, row).Ok? then {(id, row.decision)} else {}
    case OpCliRetry(id, d) => if id in w.db.ledger && w.db.ledger[id].decision == d then {(id, d)} else {}
    case _ => {}
  }

  ghost function Step(cfg: Config, w: World, op: Op): World {
    World(
      DbAfter(cfg, w.db, op),
      if op.OpClaimNext? || op.OpClaimDelivery? then w.issued + {op.token} else w.issued,
      w.authorized + Granted(cfg, w, op),
      if op.OpResume? && op.id !in w.resumed then w.resumed[op.id := op.decision] else w.resumed)
  }

  const EMPTY: World := World(Db(map[], map[]), {}, {}, map[])

  ghost function Run(cfg: Config, w: World, ops: seq<Op>): World
    decreases |ops|
  {
    if ops == [] then w else Run(cfg, Step(cfg, w, ops[0]), ops[1..])
  }

  ghost predicate LegalRun(cfg: Config, plan: Plan, w: World, ops: seq<Op>)
    decreases |ops|
  {
    ops != [] ==> Legal(plan, w, ops[0]) && LegalRun(cfg, plan, Step(cfg, w, ops[0]), ops[1..])
  }

  // ---------------------------------------------------------------- what holds of one job

  ghost predicate GoodJob(cfg: Config, plan: Plan, id: string, job: Job) {
    && (job.status == Running <==> job.token.Some?)
    && (job.token.Some? <==> job.expiresAt.Some?)
    && (job.failure.Some? ==> job.status == Queued)
    && (job.attempts == cfg.maxReplay <==> job.failure.Some?)
    && job.attempts <= cfg.maxReplay
    && (job.status == PausedApproval ==> job.checkpoint.Some?)
    && (job.checkpoint.Some? ==> id in plan && plan[id] == job.checkpoint.value && job.checkpoint.value != "")
    && (job.incident.Some? ==> job.incident.value == IncidentOf(id))
    && (job.status == Completed ==>
          job.artifact == Some(id + "/report.md") && job.content.Some? && job.digest == Some(Sha256(job.content.value)))
  }

  ghost predicate GoodDelivery(cfg: Config, job: Job, d: Delivery) {
    && d.destination == job.owner
    && (d.status == Sending <==> d.token.Some?)
    && (d.token.Some? <==> d.expiresAt.Some?)
    && (d.failure.Some? ==> d.status == Pending)
    && (d.attempts == cfg.maxDelivery <==> d.failure.Some?)
    && d.attempts <= cfg.maxDelivery
  }

  ghost predicate GoodEntry(cfg: Config, plan: Plan, id: string, e: Entry, row: Option<DecisionRow>) {
    && Faithful(cfg, e)
    && GoodJob(cfg, plan, id, e.job)
    && (e.mirror.Some? ==> e.mirror == row && e.job.checkpoint == Some(e.mirror.value.checkpoint))
    && (e.job.checkpoint.Some? ==> (e.mirror.None? <==> e.job.status == PausedApproval))
    && (e.delivery.Some? <==> e.job.status == Completed)
    && (e.delivery.Some? ==> GoodDelivery(cfg, e.job, e.delivery.value))
  }

  // ---------------------------------------------------------------- what holds across jobs

  /** This job keeps the lab's one mutable scenario to itself. */
  predicate HoldsLab(job: Job) {
    job.failure.None? && (job.status == Queued || job.status == Running) && job.incident.Some? && job.checkpoint.None?
  }

  ghost predicate OneRunning(entries: Entries) {
    forall a, b | a in entries && b in entries && entries[a].job.status == Running && entries[b].job.status == Running ::
      a == b
  }

  ghost predicate ExclusiveLab(entries: Entries) {
    && (forall a, b | a in entries && b in entries && HoldsLab(entries[a].job) && HoldsLab(entries[b].job) :: a == b)
    && (forall a, b | a in entries && b in entries && entries[a].job.status == Running && entries[a].job.incident.None? ::
          !HoldsLab(entries[b].job))
  }

  ghost predicate Positioned(entries: Entries) {
    && (forall id | id in entries :: 1 <= entries[id].job.position <= |entries|)
    && (forall a, b | a in entries && b in entries && entries[a].job.position == entries[b].job.position :: a == b)
  }

  /** Rowids break every tie, so the choice of a job or a delivery is unique. */
  lemma FirstIsUnique(entries: Entries, now: Time, id: string)
    requires Positioned(entries) && IsFirst(entries, now, id)
    ensures First(entries, now) == Some(id)
  {
    var other := First(entries, now).value;
    assert IsFirst(entries, now, other);
    assert NoLater(entries[id].job, entries[other].job) && NoLater(entries[other].job, entries[id].job);
    assert entries[id].job.position == entries[other].job.position;
  }

  lemma FirstDeliveryIsUnique(entries: Entries, now: Time, id: string)
    requires Positioned(entries) && IsFirstDelivery(entries, now, id)
    ensures FirstDelivery(entries, now) == Some(id)
  {
    var other := FirstDelivery(entries, now).value;
    assert IsFirstDelivery(entries, now, other);
    assert DeliverNoLater(entries[id], entries[other]) && DeliverNoLater(entries[other], entries[id]);
    assert entries[id].job.position == entries[other].job.position;
  }

  ghost predicate UniqueRequests(entries: Entries) {
    forall a, b | a in entries && b in entries
      && SameRequest(entries[a].job, entries[b].job.owner, entries[b].job.key) :: a == b
  }

  predicate TokensIssued(e: Entry, issued: set<string>) {
    && (e.job.token.Some? ==> e.job.token.value in issued)
    && (e.delivery.Some? && e.delivery.value.token.Some? ==> e.delivery.value.token.value in issued)
  }

  ghost predicate AllIssued(entries: Entries, issued: set<string>) {
    forall id | id in entries :: TokensIssued(entries[id], issued)
  }

  ghost predicate GoodRows(entries: Entries, issued: set<string>) {
    && OneRunning(entries)
    && ExclusiveLab(entries)
    && Positioned(entries)
    && UniqueRequests(entries)
    && AllIssued(entries, issued)
  }

  ghost predicate GoodLedger(plan: Plan, ledger: Ledger) {
    forall id | id in ledger :: id in plan && plan[id] == ledger[id].checkpoint && ledger[id].decision.Valid()
  }

  ghost predicate PlanNamed(plan: Plan) {
    forall id | id in plan :: !IsBlank(plan[id])
  }

  ghost predicate GoodDb(cfg: Config, plan: Plan, db: Db, issued: set<string>) {
    && (forall id | id in db.entries :: GoodEntry(cfg, plan, id, db.entries[id], Lookup(db.ledger, id)))
    && GoodRows(db.entries, issued)
    && GoodLedger(plan, db.ledger)
  }

  ghost predicate Good(cfg: Config, plan: Plan, w: World) {
    && cfg.Valid()
    && PlanNamed(plan)
    && GoodDb(cfg, plan, w.db, w.issued)
    && (forall p | p in w.authorized :: p.0 in w.db.ledger && w.db.ledger[p.0].decision == p.1)
    && (forall id | id in w.resumed :: id in w.db.ledger && w.db.ledger[id].decision == w.resumed[id])
  }

  // ---------------------------------------------------------------- one row changes

  /** The change keeps identity, starts no claim and takes no scenario. */
  ghost predicate Mild(before: Entry, after: Entry, issued: set<string>) {
    && after.job.position == before.job.position
    && after.job.owner == before.job.owner
    && after.job.key == before.job.key
    && (after.job.status == Running ==> before.job.status == Running && after.job.incident == before.job.incident)
    && (HoldsLab(after.job) ==> HoldsLab(before.job))
    && TokensIssued(after, issued)
  }

  /** Rowid, owner and idempotency key are written once. */
  ghost predicate SameIdentity(before: Job, after: Job) {
    after.position == before.position && after.owner == before.owner && after.key == before.key
  }

  lemma IdentityIsKept(before: Entries, after: Entries)
    requires Positioned(before) && UniqueRequests(before)
    requires after.Keys == before.Keys
    requires forall id | id in before :: SameIdentity(before[id].job, after[id].job)
    ensures Positioned(after) && UniqueRequests(after)
  {
    assert |after| == |after.Keys| == |before.Keys| == |before|;
    forall id | id in after ensures SameIdentity(before[id].job, after[id].job) && 1 <= after[id].job.position <= |after| {}
    forall a, b | a in after && b in after && after[a].job.position == after[b].job.position ensures a == b {
      assert SameIdentity(before[a].job, after[a].job) && SameIdentity(before[b].job, after[b].job);
    }
    forall a, b | a in after && b in after && SameRequest(after[a].job, after[b].job.owner, after[b].job.key)
      ensures a == b
    {
      assert SameIdentity(before[a].job, after[a].job) && SameIdentity(before[b].job, after[b].job);
      assert SameRequest(before[a].job, before[b].job.owner, before[b].job.key);
    }
  }

  lemma MildChangesKeepRows(before: Entries, after: Entries, issued: set<string>, issued': set<string>)
    requires GoodRows(before, issued) && issued <= issued'
    requires after.Keys == before.Keys
    requires forall id | id in before :: Mild(before[id], after[id], issued')
    ensures GoodRows(after, issued')
  {
    forall id | id in before ensures SameIdentity(before[id].job, after[id].job) && TokensIssued(after[id], issued') {
      assert Mild(before[id], after[id], issued');
    }
    IdentityIsKept(before, after);
    hide Positioned, UniqueRequests, TokensIssued;
    forall a | a in after
      ensures after[a].job.status == Running ==> before[a].job.status == Running && after[a].job.incident == before[a].job.incident
      ensures HoldsLab(after[a].job) ==> HoldsLab(before[a].job)
    {
      assert Mild(before[a], after[a], issued');
    }
    hide Mild, HoldsLab;
    assert OneRunning(after);
    assert ExclusiveLab(after);
  }

  lemma OneMildWriteKeepsGood(cfg: Config, plan: Plan, db: Db, issued: set<string>, issued': set<string>, id: string, c: Change)
    requires GoodDb(cfg, plan, db, issued) && issued <= issued' && id in db.entries
    requires Mild(db.entries[id], Commit(db.entries[id], c), issued')
    requires GoodEntry(cfg, plan, id, Commit(db.entries[id], c), Lookup(db.ledger, id))
    ensures GoodDb(cfg, plan, Write(db, id, c), issued')
  {
    hide GoodEntry, Mild, Commit, TokensIssued, OneRunning, ExclusiveLab, Positioned, UniqueRequests;
    var e, after := Commit(db.entries[id], c), Write(db, id, c).entries;
    assert after == db.entries[id := e];
    forall other | other in db.entries ensures Mild(db.entries[other], after[other], issued') {
      if other != id { UntouchedIsMild(db.entries[other], issued, issued'); }
    }
    assert after.Keys == db.entries.Keys;
    MildChangesKeepRows(db.entries, after, issued, issued');
  }

  lemma UntouchedIsMild(e: Entry, issued: set<string>, issued': set<string>)
    requires TokensIssued(e, issued) && issued <= issued'
    ensures Mild(e, e, issued')
  {
  }

  /** A change that an auditor can follow and that leaves the columns consistent is good. */
  lemma GoodChange(cfg: Config, plan: Plan, id: string, e: Entry, row: Option<DecisionRow>, c: Change)
    requires Faithful(cfg, e) && Explained(cfg, e, c)
    requires GoodJob(cfg, plan, id, c.job)
    requires c.mirror.Some? ==> c.mirror == row && c.job.checkpoint == Some(c.mirror.value.checkpoint)
    requires c.job.checkpoint.Some? ==> (c.mirror.None? <==> c.job.status == PausedApproval)
    requires c.delivery.Some? <==> c.job.status == Completed
    requires c.delivery.Some? ==> GoodDelivery(cfg, c.job, c.delivery.value)
    ensures GoodEntry(cfg, plan, id, Commit(e, c), row)
  {
    ExplainedChangeStaysFaithful(cfg, e, c);
  }

  /** The rows a change leaves behind are good, and it disturbs no other job. */
  ghost predicate Sound(cfg: Config, plan: Plan, id: string, e: Entry, row: Option<DecisionRow>, issued: set<string>, c: Change) {
    GoodEntry(cfg, plan, id, Commit(e, c), row) && Mild(e, Commit(e, c), issued)
  }

  ghost predicate Healthy(cfg: Config, plan: Plan, id: string, e: Entry, row: Option<DecisionRow>, issued: set<string>) {
    cfg.Valid() && GoodEntry(cfg, plan, id, e, row) && TokensIssued(e, issued)
  }

  lemma RenewIsSound(cfg: Config, plan: Plan, id: string, e: Entry, row: Option<DecisionRow>, issued: set<string>,
                     token: string, now: Time)
    requires Healthy(cfg, plan, id, e, row, issued)
    ensures var r := RenewChange(cfg, e, token, now); r.Ok? ==> Sound(cfg, plan, id, e, row, issued, r.value)
  {
    var r := RenewChange(cfg, e, token, now);
    if r.Ok? { GoodChange(cfg, plan, id, e, row, r.value); }
  }

  lemma PauseIsSound(cfg: Config, plan: Plan, id: string, e: Entry, row: Option<DecisionRow>, issued: set<string>,
                     checkpoint: string, token: string, now: Time)
    requires Healthy(cfg, plan, id, e, row, issued)
    requires e.job.checkpoint.None? && id in plan && plan[id] == checkpoint && checkpoint != ""
    ensures var r := PauseChange(e, checkpoint, token, now); r.Ok? ==> Sound(cfg, plan, id, e, row, issued, r.value)
  {
    var r := PauseChange(e, checkpoint, token, now);
    if r.Ok? { GoodChange(cfg, plan, id, e, row, r.value); }
  }

  lemma RequeueIsSound(cfg: Config, plan: Plan, id: string, e: Entry, row: Option<DecisionRow>, issued: set<string>, token: string)
    requires Healthy(cfg, plan, id, e, row, issued)
    ensures var r := RequeueChange(e, token); r.Ok? ==> Sound(cfg, plan, id, e, row, issued, r.value)
  {
    var r := RequeueChange(e, token);
    if r.Ok? { GoodChange(cfg, plan, id, e, row, r.value); }
  }

  lemma RetryIsSound(cfg: Config, plan: Plan, id: string, e: Entry, row: Option<DecisionRow>, issued: set<string>,
                     token: string, now: Time, reason: string)
    requires Healthy(cfg, plan, id, e, row, issued)
    ensures var r := RetryChange(cfg, e, token, now, reason); r.Ok? ==> Sound(cfg, plan, id, e, row, issued, r.value.0)
  {
    var r := RetryChange(cfg, e, token, now, reason);
    if r.Ok? { GoodChange(cfg, plan, id, e, row, r.value.0); }
  }

  lemma ReclaimIsSound(cfg: Config, plan: Plan, id: string, e: Entry, row: Option<DecisionRow>, issued: set<string>, now: Time)
    requires Healthy(cfg, plan, id, e, row, issued)
    ensures Sound(cfg, plan, id, e, row, issued, ReclaimChange(cfg, e, now))
  {
    GoodChange(cfg, plan, id, e, row, ReclaimChange(cfg, e, now));
  }

  lemma ReconcileIsSound(cfg: Config, plan: Plan, id: string, e: Entry, row: Option<DecisionRow>, issued: set<string>)
    requires Healthy(cfg, plan, id, e, row, issued)
    requires row.Some? ==> id in plan && plan[id] == row.value.checkpoint
    ensures var r := ReconcileChange(e, row); r.Ok? && Sound(cfg, plan, id, e, row, issued, r.value)
  {
    GoodChange(cfg, plan, id, e, row, ReconcileChange(e, row).value);
  }

  lemma FinalizeIsSound(cfg: Config, plan: Plan, id: string, e: Entry, row: Option<DecisionRow>, issued: set<string>,
                        artifact: string, token: string, now: Time, snapshot: Option<string>)
    requires Healthy(cfg, plan, id, e, row, issued)
    ensures var r := FinalizeChange(id, e, artifact, token, now, snapshot);
            r.Ok? ==> Sound(cfg, plan, id, e, row, issued, r.value)
  {
    var r := FinalizeChange(id, e, artifact, token, now, snapshot);
    if r.Ok? { GoodChange(cfg, plan, id, e, row, r.value); }
  }

  lemma DeliveredIsSound(cfg: Config, plan: Plan, id: string, e: Entry, row: Option<DecisionRow>, issued: set<string>,
                         token: string, now: Time)
    requires Healthy(cfg, plan, id, e, row, issued)
    ensures var r := DeliveredChange(e, token, now); r.Ok? ==> Sound(cfg, plan, id, e, row, issued, r.value)
  {
    var r := DeliveredChange(e, token, now);
    if r.Ok? { GoodChange(cfg, plan, id, e, row, r.value); }
  }

  lemma RenewDeliveryIsSound(cfg: Config, plan: Plan, id: string, e: Entry, row: Option<DecisionRow>, issued: set<string>,
                             token: string, now: Time)
    requires Healthy(cfg, plan, id, e, row, issued)
    ensures var r := RenewDeliveryChange(cfg, e, token, now); r.Ok? ==> Sound(cfg, plan, id, e, row, issued, r.value)
  {
    var r := RenewDeliveryChange(cfg, e, token, now);
    if r.Ok? { GoodChange(cfg, plan, id, e, row, r.value); }
  }

  lemma ReleaseDeliveryIsSound(cfg: Config, plan: Plan, id: string, e: Entry, row: Option<DecisionRow>, issued: set<string>,
                               token: string)
    requires Healthy(cfg, plan, id, e, row, issued)
    ensures var r := ReleaseDeliveryChange(e, token); r.Ok? ==> Sound(cfg, plan, id, e, row, issued, r.value)
  {
    var r := ReleaseDeliveryChange(e, token);
    if r.Ok? { GoodChange(cfg, plan, id, e, row, r.value); }
  }

  lemma RetryDeliveryIsSound(cfg: Config, plan: Plan, id: string, e: Entry, row: Option<DecisionRow>, issued: set<string>,
                             token: string, now: Time, reason: string)
    requires Healthy(cfg, plan, id, e, row, issued)
    ensures var r := RetryDeliveryChange(cfg, e, token, now, reason); r.Ok? ==> Sound(cfg, plan, id, e, row, issued, r.value.0)
  {
    var r := RetryDeliveryChange(cfg, e, token, now, reason);
    if r.Ok? { GoodChange(cfg, plan, id, e, row, r.value.0); }
  }

  lemma ReclaimDeliveryIsSound(cfg: Config, plan: Plan, id: string, e: Entry, row: Option<DecisionRow>, issued: set<string>, now: Time)
    requires Healthy(cfg, plan, id, e, row, issued)
    ensures Sound(cfg, plan, id, e, row, issued, ReclaimDeliveryChange(cfg, e, now))
  {
    GoodChange(cfg, plan, id, e, row, ReclaimDeliveryChange(cfg, e, now));
  }

  lemma ClaimDeliveryIsSound(cfg: Config, plan: Plan, id: string, e: Entry, row: Option<DecisionRow>, issued: set<string>,
                             now: Time, token: string)
    requires Healthy(cfg, plan, id, e, row, issued) && Deliverable(e, now)
    ensures Sound(cfg, plan, id, e, row, issued + {token}, ClaimDeliveryChange(cfg, e, now, token))
  {
    GoodChange(cfg, plan, id, e, row, ClaimDeliveryChange(cfg, e, now, token));
  }
}

/** The SQLite replay control plane as the object it is: four tables updated in place inside
    transactions, and the owner-decision ledger in a second database. Every operation is proved to
    leave the joined tables exactly as the function of the same name in `ControlPlane` says. */
module SqlitePlane {
  import opened Wrappers
  import opened Text
  import opened Decisions
  import opened ControlPlane
  import opened PlaneRuns
  import opened PlaneSteps
  import opened CrashRefinement
  import opened Sweep

  function Get<T>(rows: map<string, T>, id: string): Option<T> {
    if id in rows then Some(rows[id]) else None
  }

  datatype Tables = Tables(
    jobs: map<string, Job>,
    events: map<string, seq<EventRow>>,
    decisions: map<string, DecisionRow>,
    deliveries: map<string, Delivery>)

  /** Foreign keys, the rowid column and the unique index on (owner, idempotency key). */
  ghost predicate Consistent(t: Tables) {
    && t.events.Keys == t.jobs.Keys
    && t.decisions.Keys <= t.jobs.Keys
    && t.deliveries.Keys <= t.jobs.Keys
    && Positioned(Joined(t))
    && UniqueRequests(Joined(t))
  }

  function Joined(t: Tables): Entries {
    map id | id in t.jobs && id in t.events ::
      Entry(t.jobs[id], t.events[id], Get(t.decisions, id), Get(t.deliveries, id))
  }

  /** The statements of one operation on one job, as the change they make to its joined row. */
  ghost predicate Wrote(t: Tables, t': Tables, id: string, c: Change) {
    && id in t.jobs && id in t.events
    && t'.jobs == t.jobs[id := c.job]
    && t'.events == (if c.event.Some? then t.events[id := Append(t.events[id], c.event)] else t.events)
    && t'.decisions == (if c.mirror.Some? then t.decisions[id := c.mirror.value] else t.decisions)
    && (c.mirror.None? ==> id !in t.decisions)
    && t'.deliveries == (if c.delivery.Some? then t.deliveries[id := c.delivery.value] else t.deliveries)
    && (c.delivery.None? ==> id !in t.deliveries)
  }

  lemma WrittenRowJoins(t: Tables, t': Tables, id: string, c: Change)
    requires t.events.Keys == t.jobs.Keys && Wrote(t, t', id, c)
    ensures Joined(t') == Joined(t)[id := Commit(Joined(t)[id], c)]
  {
    hide Commit;
    var after := Joined(t)[id := Commit(Joined(t)[id], c)];
    assert t'.events.Keys == t.events.Keys && t'.jobs.Keys == t.jobs.Keys;
    assert Joined(t').Keys == after.Keys;
    forall other | other in after.Keys ensures Joined(t')[other] == after[other] {
      if other == id { WrittenRow(t, t', id, c); } else { OtherRowStays(t, t', id, c, other); }
    }
    hide Joined, Wrote;
    assert Joined(t') == after;
  }

  lemma OtherRowStays(t: Tables, t': Tables, id: string, c: Change, other: string)
    requires t.events.Keys == t.jobs.Keys && Wrote(t, t', id, c) && other in t.jobs && other != id
    ensures other in Joined(t') && Joined(t')[other] == Joined(t)[other]
  {
  }

  lemma WrittenRow(t: Tables, t': Tables, id: string, c: Change)
    requires t.events.Keys == t.jobs.Keys && Wrote(t, t', id, c)
    ensures Joined(t')[id] == Commit(Joined(t)[id], c)
  {
  }

  lemma ReplacedRowKeepsIdentity(entries: Entries, id: string, e: Entry)
    requires Positioned(entries) && UniqueRequests(entries) && id in entries && SameIdentity(entries[id].job, e.job)
    ensures Positioned(entries[id := e]) && UniqueRequests(entries[id := e])
  {
    hide Positioned, UniqueRequests, SameIdentity;
    var after := entries[id := e];
    assert after.Keys == entries.Keys;
    forall other | other in entries ensures SameIdentity(entries[other].job, after[other].job) {
      if other != id { SameIdentityHolds(entries[other].job); }
    }
    IdentityIsKept(entries, after);
  }

  lemma WroteKeepsKeys(t: Tables, t': Tables, id: string, c: Change)
    requires Consistent(t) && Wrote(t, t', id, c)
    ensures t'.events.Keys == t'.jobs.Keys && t'.decisions.Keys <= t'.jobs.Keys && t'.deliveries.Keys <= t'.jobs.Keys
  {
    hide Positioned, UniqueRequests, Joined, Append;
    assert t'.jobs.Keys == t.jobs.Keys && t'.events.Keys == t.events.Keys;
  }

  /** What the statements wrote is the change, and the tables stay consistent. */
  lemma WrittenRowsJoin(t: Tables, t': Tables, id: string, c: Change)
    requires Consistent(t) && Wrote(t, t', id, c) && SameIdentity(t.jobs[id], c.job)
    ensures Joined(t') == Joined(t)[id := Commit(Joined(t)[id], c)]
    ensures Consistent(t')
  {
    WrittenRowJoins(t, t', id, c);
    WroteKeepsKeys(t, t', id, c);
    JoinedRow(t, id);
    assert Commit(Joined(t)[id], c).job == c.job;
    hide Positioned, UniqueRequests, Joined, Wrote, SameIdentity, Commit;
    ReplacedRowKeepsIdentity(Joined(t), id, Commit(Joined(t)[id], c));
  }

  lemma JoinedRow(t: Tables, id: string)
    requires Consistent(t)
    ensures id in Joined(t) <==> id in t.jobs
    ensures id in t.jobs ==>
              id in t.events && Joined(t)[id] == Entry(t.jobs[id], t.events[id], Get(t.decisions, id), Get(t.deliveries, id))
  {
    hide Positioned, UniqueRequests;
  }

  lemma SameIdentityHolds(job: Job)
    ensures SameIdentity(job, job)
  {
  }

  lemma JoinedKeys(t: Tables)
    requires Consistent(t)
    ensures Joined(t).Keys == t.jobs.Keys
  {
    hide Positioned, UniqueRequests;
  }

  lemma JoinedCount(t: Tables)
    requires Consistent(t)
    ensures |Joined(t)| == |t.jobs|
  {
    JoinedKeys(t);
    hide Consistent, Joined;
    assert |Joined(t)| == |Joined(t).Keys| && |t.jobs| == |t.jobs.Keys|;
  }

  lemma InsertedRowJoins(t: Tables, t': Tables, id: string, job: Job, rows: seq<EventRow>)
    requires t.events.Keys == t.jobs.Keys && t.decisions.Keys <= t.jobs.Keys && t.deliveries.Keys <= t.jobs.Keys
    requires id !in t.jobs && t' == t.(jobs := t.jobs[id := job], events := t.events[id := rows])
    ensures Joined(t') == Joined(t)[id := Entry(job, rows, None, None)]
  {
    var after := Joined(t)[id := Entry(job, rows, None, None)];
    assert forall other | other in Joined(t) :: Joined(t')[other] == Joined(t)[other];
    assert Joined(t').Keys == after.Keys;
  }

  lemma InsertedRowsJoin(t: Tables, t': Tables, id: string, job: Job, rows: seq<EventRow>)
    requires Consistent(t) && id !in t.jobs
    requires t' == t.(jobs := t.jobs[id := job], events := t.events[id := rows])
    requires job.position == |t.jobs| + 1
    requires forall prior | prior in t.jobs :: !SameRequest(t.jobs[prior], job.owner, job.key)
    ensures Joined(t') == Joined(t)[id := Entry(job, rows, None, None)]
    ensures Consistent(t')
  {
    InsertedRowJoins(t, t', id, job, rows);
    JoinedKeys(t);
    JoinedCount(t);
    forall prior | prior in Joined(t) ensures !SameRequest(Joined(t)[prior].job, job.owner, job.key) {
      JoinedRow(t, prior);
    }
    hide Positioned, UniqueRequests, Joined, SameRequest;
    NewRowIsIdentified(Joined(t), id, Entry(job, rows, None, None));
    assert t'.events.Keys == t'.jobs.Keys;
  }

  // ---------------------------------------------------------------- queries

  lemma RequestsAgree(t: Tables, owner: string, key: string)
    requires Consistent(t)
    ensures forall prior | prior in t.jobs && SameRequest(t.jobs[prior], owner, key) ::
              && prior in Joined(t) && Joined(t)[prior].job == t.jobs[prior]
              && forall other | other in Joined(t) && SameRequest(Joined(t)[other].job, owner, key) :: other == prior
    ensures (exists prior :: prior in Joined(t) && SameRequest(Joined(t)[prior].job, owner, key)) <==>
            (exists prior :: prior in t.jobs && SameRequest(t.jobs[prior], owner, key))
  {
    JoinedKeys(t);
    forall prior | prior in t.jobs ensures Joined(t)[prior].job == t.jobs[prior] { JoinedRow(t, prior); }
    hide Positioned, Joined;
    forall prior, other | prior in t.jobs && other in t.jobs
                          && SameRequest(t.jobs[prior], owner, key) && SameRequest(t.jobs[other], owner, key)
      ensures other == prior
    {
      assert SameRequest(Joined(t)[other].job, Joined(t)[prior].job.owner, Joined(t)[prior].job.key);
    }
  }

  lemma NewJobAsks(position: nat, owner: string, family: string, key: string)
    ensures var job := NewJob(position, owner, family, key);
            job.position == position && forall prior: Job :: SameRequest(prior, job.owner, job.key) <==> SameRequest(prior, owner, key)
  {
  }

  /** The row `ORDER BY ... LIMIT 1` returns. */
  predicate Picks(jobs: map<string, Job>, now: Time, id: string) {
    && id in jobs && Claimable(jobs[id], now)
    && forall other | other in jobs && Claimable(jobs[other], now) :: NoLater(jobs[id], jobs[other])
  }

  /** The three queries of `claim_next` see in the job table what the specification sees in the
      joined rows. */
  lemma QueriesAgree(t: Tables, now: Time)
    requires Consistent(t)
    ensures AnyRunning(Joined(t)) <==> exists id :: id in t.jobs && t.jobs[id].status == Running
    ensures Deferred(Joined(t), now) <==>
              exists id :: id in t.jobs && Waiting(t.jobs[id]) && t.jobs[id].incident.Some? && t.jobs[id].availableAt > now
    ensures forall id :: Picks(t.jobs, now, id) ==> id in t.jobs && First(Joined(t), now) == Some(id)
    ensures (forall id :: !Picks(t.jobs, now, id)) ==> First(Joined(t), now) == None
  {
    JoinedKeys(t);
    var rows := Joined(t);
    forall id | id in rows ensures rows[id].job == t.jobs[id] { JoinedRow(t, id); }
    hide Joined, Positioned, UniqueRequests, Claimable, NoLater;
    forall id ensures Picks(t.jobs, now, id) <==> IsFirst(rows, now, id) {}
    forall id | IsFirst(rows, now, id) ensures First(rows, now) == Some(id) { FirstIsUnique(rows, now, id); }
  }

  predicate PicksDelivery(jobs: map<string, Job>, deliveries: map<string, Delivery>, now: Time, id: string) {
    && id in jobs && id in deliveries && Pickable(deliveries[id], now)
    && forall other | other in deliveries && other in jobs && Pickable(deliveries[other], now) ::
         if deliveries[id].availableAt != deliveries[other].availableAt then deliveries[id].availableAt < deliveries[other].availableAt
         else jobs[id].position <= jobs[other].position
  }

  predicate Pickable(d: Delivery, now: Time) {
    d.status == Pending && d.failure.None? && d.availableAt <= now
  }

  lemma DeliveriesHaveJobs(t: Tables, id: string)
    requires Consistent(t)
    ensures id in t.deliveries ==> id in t.jobs
  {
    hide Positioned, UniqueRequests, Joined;
  }

  /** The join of `claim_delivery` picks the delivery the specification picks. */
  lemma DeliveryQueryAgrees(t: Tables, now: Time)
    requires Consistent(t)
    ensures forall id :: PicksDelivery(t.jobs, t.deliveries, now, id) ==>
              id in t.jobs && id in t.deliveries && FirstDelivery(Joined(t), now) == Some(id)
    ensures (forall id :: !PicksDelivery(t.jobs, t.deliveries, now, id)) ==> FirstDelivery(Joined(t), now) == None
  {
    var rows := Joined(t);
    forall id
      ensures id in rows <==> id in t.jobs
      ensures id in rows ==> rows[id].job == t.jobs[id] && rows[id].delivery == Get(t.deliveries, id)
      ensures id in rows ==> (Deliverable(rows[id], now) <==> id in t.deliveries && Pickable(t.deliveries[id], now))
    {
      JoinedRow(t, id);
    }
    hide Joined, Positioned, UniqueRequests, Deliverable, Pickable;
    forall id ensures PicksDelivery(t.jobs, t.deliveries, now, id) <==> IsFirstDelivery(rows, now, id) {
      PickedIsFirst(t, rows, now, id);
    }
    forall id | IsFirstDelivery(rows, now, id) ensures FirstDelivery(rows, now) == Some(id) { FirstDeliveryIsUnique(rows, now, id); }
  }

  lemma PickedIsFirst(t: Tables, rows: Entries, now: Time, id: string)
    requires rows.Keys == t.jobs.Keys
    requires forall id | id in rows :: rows[id].job == t.jobs[id] && rows[id].delivery == Get(t.deliveries, id)
    ensures PicksDelivery(t.jobs, t.deliveries, now, id) <==> IsFirstDelivery(rows, now, id)
  {
  }

  lemma UnpausedIsSettled(e: Entry, row: Option<DecisionRow>)
    requires e.job.status != PausedApproval
    ensures Settle(e, row) == e && ReconcileChange(e, row).Ok?
  {
  }

  /** The checkpoint database's decision table. */
  class DecisionLedger {
    var rows: Ledger

    constructor ()
      ensures rows == map[]
    {
      rows := map[];
    }

    /** `_ensure_ledger_decision`, which commits on its own. */
    method EnsureDecision(id: string, row: DecisionRow) returns (r: Reply<()>)
      modifies this
      ensures var spec := EnsureLedger(old(rows), id, row);
              && (spec.Ok? ==> r == Ok(()) && rows == spec.value)
              && (!spec.Ok? ==> !r.Ok? && rows == old(rows) && (r.Conflict? <==> spec.Conflict?) && (r.Integrity? <==> spec.Integrity?))
      ensures r != NotFound && r != Invalid
    {
      if id in rows {
        if rows[id].checkpoint != row.checkpoint {
          return Integrity;
        }
        if rows[id].decision != row.decision {
          return Conflict;
        }
        return Ok(());
      }
      rows := rows[id := row];
      return Ok(());
    }

    /** `record_decision_before_resume`: one row per thread, refused when there is one. */
    method Record(id: string, row: DecisionRow) returns (r: Reply<()>)
      modifies this
      ensures forall entries :: Db(entries, rows) == After(Db(entries, old(rows)), CliRecord(Db(entries, old(rows)), id, row))
      ensures r == if id in old(rows) then Conflict else Ok(())
    {
      if id in rows {
        return Conflict;
      }
      rows := rows[id := row];
      return Ok(());
    }
  }

  class SqliteReplayControlPlane {
    const cfg: Config
    const ledger: DecisionLedger
    var jobs: map<string, Job>
    var events: map<string, seq<EventRow>>
    var decisions: map<string, DecisionRow>
    var deliveries: map<string, Delivery>

    function Rows(): Tables
      reads this
    {
      Tables(jobs, events, decisions, deliveries)
    }

    ghost predicate Valid()
      reads this
    {
      cfg.Valid() && Consistent(Rows())
    }

    /** Both databases, as the specification sees them. */
    function Contents(): Db
      reads this, ledger
    {
      Db(Joined(Rows()), ledger.rows)
    }

    constructor (cfg: Config, ledger: DecisionLedger)
      requires cfg.Valid()
      ensures Valid() && this.cfg == cfg && this.ledger == ledger && Contents() == Db(map[], ledger.rows)
    {
      this.cfg := cfg;
      this.ledger := ledger;
      jobs, events, decisions, deliveries := map[], map[], map[], map[];
    }

    /** `_event` */
    method Event(id: string, event: Event)
      requires id in events
      modifies `events
      ensures events == old(events)[id := Append(old(events)[id], Some(event))]
    {
      events := events[id := events[id] + [EventRow(NextOrdinal(events[id]), event)]];
    }

    method RenewRunning(id: string, token: string, now: Time) returns (r: Reply<()>)
      requires Valid()
      modifies this
      ensures Valid()
      ensures var spec := Renew(cfg, old(Contents()), id, token, now);
              Contents() == After(old(Contents()), spec) && r == Answer(spec)
    {
      hide Consistent, Joined;
      ghost var t := Rows();
      JoinedRow(t, id);
      if id !in jobs || !Current(jobs[id], token, now) {
        return Conflict;
      }
      jobs := jobs[id := jobs[id].(expiresAt := Some(now + cfg.lease))];
      WrittenRowsJoin(t, Rows(), id, RenewChange(cfg, Joined(t)[id], token, now).value);
      return Ok(());
    }

    method ReserveIncident(id: string, token: string, now: Time) returns (r: Reply<string>)
      requires Valid()
      modifies this
      ensures Valid()
      ensures var spec := Reserve(old(Contents()), id, token, now);
              Contents() == After(old(Contents()), spec) && r == Answer(spec)
    {
      hide Consistent, Joined;
      ghost var t := Rows();
      JoinedRow(t, id);
      if id !in jobs {
        return NotFound;
      }
      if !Current(jobs[id], token, now) {
        return Conflict;
      }
      ghost var c := ReserveChange(id, Joined(t)[id], token, now).value.0;
      if jobs[id].incident.None? {
        jobs := jobs[id := jobs[id].(incident := Some(IncidentOf(id)))];
        Event(id, ScenarioReserved(IncidentOf(id)));
        WrittenRowsJoin(t, Rows(), id, c);
        return Ok(IncidentOf(id));
      }
      WrittenRowsJoin(t, t, id, c);
      return Ok(jobs[id].incident.value);
    }

    method MarkPaused(id: string, checkpoint: string, token: string, now: Time) returns (r: Reply<()>)
      requires Valid()
      modifies this
      ensures Valid()
      ensures var spec := Pause(old(Contents()), id, checkpoint, token, now);
              Contents() == After(old(Contents()), spec) && r == Answer(spec)
    {
      hide Consistent, Joined;
      ghost var t := Rows();
      JoinedRow(t, id);
      if IsBlank(checkpoint) {
        return Invalid;
      }
      if id !in jobs {
        return NotFound;
      }
      if !Current(jobs[id], token, now) {
        return Conflict;
      }
      jobs := jobs[id := jobs[id].(status := PausedApproval, checkpoint := Some(checkpoint), token := None, expiresAt := None)];
      Event(id, DecisionRequested(checkpoint));
      WrittenRowsJoin(t, Rows(), id, PauseChange(Joined(t)[id], checkpoint, token, now).value);
      return Ok(());
    }

    method RequeueRunning(id: string, token: string) returns (r: Reply<()>)
      requires Valid()
      modifies this
      ensures Valid()
      ensures var spec := Requeue(old(Contents()), id, token);
              Contents() == After(old(Contents()), spec) && r == Answer(spec)
    {
      hide Consistent, Joined;
      ghost var t := Rows();
      JoinedRow(t, id);
      if id !in jobs || !Holds(jobs[id], token) {
        return Conflict;
      }
      jobs := jobs[id := jobs[id].(status := Queued, token := None, expiresAt := None)];
      Event(id, InvestigationRequeued);
      WrittenRowsJoin(t, Rows(), id, RequeueChange(Joined(t)[id], token).value);
      return Ok(());
    }

    method RetryRunning(id: string, token: string, now: Time, error: string) returns (r: Reply<bool>)
      requires Valid()
      modifies this
      ensures Valid()
      ensures var spec := Retry(cfg, old(Contents()), id, token, now, error);
              Contents() == After(old(Contents()), spec) && r == Answer(spec)
    {
      hide Consistent, Joined;
      ghost var t := Rows();
      JoinedRow(t, id);
      if id !in jobs {
        return NotFound;
      }
      if !Holds(jobs[id], token) {
        return Conflict;
      }
      ghost var c := RetryChange(cfg, Joined(t)[id], token, now, error).value.0;
      var attempt := jobs[id].attempts + 1;
      if attempt >= cfg.maxReplay {
        jobs := jobs[id := jobs[id].(status := Queued, token := None, expiresAt := None, attempts := attempt, failure := Some(RetryLimit(error)))];
        Event(id, InvestigationFailed(attempt));
        WrittenRowsJoin(t, Rows(), id, c);
        return Ok(false);
      }
      var retryAt := now + RetryDelay(cfg, attempt);
      jobs := jobs[id := jobs[id].(status := Queued, token := None, expiresAt := None, attempts := attempt, availableAt := retryAt)];
      Event(id, RetryScheduled(attempt, retryAt));
      WrittenRowsJoin(t, Rows(), id, c);
      return Ok(true);
    }

    method FinalizeReport(id: string, artifact: string, token: string, now: Time, snapshot: Option<string>) returns (r: Reply<()>)
      requires Valid()
      modifies this
      ensures Valid()
      ensures var spec := Finalize(old(Contents()), id, artifact, token, now, snapshot);
              Contents() == After(old(Contents()), spec) && r == Answer(spec)
    {
      hide Consistent, Joined;
      ghost var t := Rows();
      JoinedRow(t, id);
      if IsBlank(artifact) {
        return Invalid;
      }
      if id !in jobs {
        return NotFound;
      }
      if jobs[id].status == Completed || !Current(jobs[id], token, now) {
        return Conflict;
      }
      if !OwnReport(id, artifact) || snapshot.None? {
        return Invalid;
      }
      if id in deliveries {
        return Integrity;
      }
      jobs := jobs[id := jobs[id].(status := Completed, artifact := Some(artifact), content := snapshot,
                                   digest := Some(Sha256(snapshot.value)), token := None, expiresAt := None)];
      deliveries := deliveries[id := FreshDelivery(jobs[id].owner)];
      Event(id, ReportFinalized);
      WrittenRowsJoin(t, Rows(), id, FinalizeChange(id, Joined(t)[id], artifact, token, now, snapshot).value);
      return Ok(());
    }

    /** `_reclaim_expired_investigations` */
    method ReclaimExpiredInvestigations(now: Time)
      requires Valid()
      modifies `jobs, `events
      ensures Valid()
      ensures Joined(Rows()) == ReclaimAll(cfg, old(Joined(Rows())), now)
    {
      hide Consistent, Joined, Commit, ReclaimChange;
      JoinedKeys(Rows());
      ghost var before := Joined(Rows());
      ghost var after := ReclaimAll(cfg, before, now);
      var rows := set id | id in jobs && Expired(jobs[id], now);
      forall id | id in before && id !in rows ensures after[id] == before[id] {
        JoinedRow(Rows(), id);
        UnexpiredIsKept(cfg, before[id], now);
      }
      PartlyStarts(before, after, rows);
      while rows != {}
        invariant Consistent(Rows()) && decisions == old(decisions) && deliveries == old(deliveries)
        invariant forall id | id in rows :: id in before && id in jobs && Expired(jobs[id], now)
        invariant Joined(Rows()) == Partly(before, after, rows)
        decreases |rows|
      {
        var id :| id in rows;
        ReclaimOne(id, now);
        PartlyAdvances(before, after, rows, id);
        rows := rows - {id};
      }
      PartlyEnds(before, after);
    }

    method ReclaimOne(id: string, now: Time)
      requires Valid() && id in jobs && Expired(jobs[id], now)
      modifies `jobs, `events
      ensures Valid() && id in old(Joined(Rows()))
      ensures forall other | other != id && other in old(jobs) :: other in jobs && jobs[other] == old(jobs)[other]
      ensures var e := old(Joined(Rows()))[id];
              Joined(Rows()) == old(Joined(Rows()))[id := Commit(e, ReclaimChange(cfg, e, now))]
    {
      hide Consistent, Joined;
      ghost var t := Rows();
      JoinedRow(t, id);
      ghost var c := ReclaimChange(cfg, Joined(t)[id], now);
      var attempt := jobs[id].attempts + 1;
      if attempt >= cfg.maxReplay {
        jobs := jobs[id := jobs[id].(status := Queued, token := None, expiresAt := None, attempts := attempt,
                                     failure := Some(RetryLimit("lease_expired")))];
        Event(id, InvestigationFailed(attempt));
        WrittenRowsJoin(t, Rows(), id, c);
        return;
      }
      var retryAt := now + RetryDelay(cfg, attempt);
      jobs := jobs[id := jobs[id].(status := Queued, token := None, expiresAt := None, attempts := attempt, availableAt := retryAt)];
      Event(id, LeaseExpired(attempt, retryAt));
      WrittenRowsJoin(t, Rows(), id, c);
    }

    /** `_reconcile_durable_decisions`; false is the integrity error that rolls the caller back. */
    method ReconcileDurableDecisions() returns (ok: bool)
      requires Valid()
      modifies `jobs, `events, `decisions
      ensures Valid()
      ensures ok <==> Reconcilable(old(Contents()))
      ensures ok ==> Joined(Rows()) == ReconcileAll(old(Contents()))
    {
      hide Consistent, Joined, Settle, ReconcileChange, Commit;
      JoinedKeys(Rows());
      ghost var db := Contents();
      ghost var before, after := db.entries, Settled(db).entries;
      var rows := set id | id in jobs && jobs[id].status == PausedApproval;
      forall id | id in before && id !in rows
        ensures after[id] == before[id] && ReconcileChange(before[id], Lookup(db.ledger, id)).Ok?
      {
        JoinedRow(Rows(), id);
        UnpausedIsSettled(before[id], Lookup(db.ledger, id));
      }
      PartlyStarts(before, after, rows);
      while rows != {}
        invariant Consistent(Rows()) && deliveries == old(deliveries) && ledger.rows == db.ledger
        invariant forall id | id in rows :: id in before && id in jobs && jobs[id].status == PausedApproval
        invariant forall id | id in before && id !in rows :: ReconcileChange(before[id], Lookup(db.ledger, id)).Ok?
        invariant Joined(Rows()) == Partly(before, after, rows)
        decreases |rows|
      {
        var id :| id in rows;
        ok := ReconcileOne(id);
        if !ok {
          return false;
        }
        PartlyAdvances(before, after, rows, id);
        rows := rows - {id};
      }
      PartlyEnds(before, after);
      SettledIsReconciled(db);
      return true;
    }

    method ReconcileOne(id: string) returns (ok: bool)
      requires Valid() && id in jobs && jobs[id].status == PausedApproval
      modifies `jobs, `events, `decisions
      ensures Valid() && id in old(Joined(Rows()))
      ensures forall other | other != id && other in old(jobs) :: other in jobs && jobs[other] == old(jobs)[other]
      ensures var e, row := old(Joined(Rows()))[id], Lookup(ledger.rows, id);
              && (ok <==> ReconcileChange(e, row).Ok?)
              && Joined(Rows()) == old(Joined(Rows()))[id := Settle(e, row)]
    {
      hide Consistent, Joined;
      ghost var t := Rows();
      JoinedRow(t, id);
      ghost var e := Joined(t)[id];
      assert Joined(t) == Joined(t)[id := e];
      var checkpoint := jobs[id].checkpoint;
      if checkpoint.None? || checkpoint.value == "" {
        return false;
      }
      if id !in ledger.rows {
        assert Commit(e, Keep(e)) == e;
        return true;
      }
      var row := ledger.rows[id];
      if row.checkpoint != checkpoint.value {
        return false;
      }
      if id !in decisions {
        decisions := decisions[id := row];
      } else if decisions[id] != row {
        return false;
      }
      jobs := jobs[id := jobs[id].(status := Queued)];
      Event(id, DecisionRecorded(checkpoint.value, row.decision.verdict));
      WrittenRowsJoin(t, Rows(), id, ReconcileChange(e, Some(row)).value);
      return true;
    }

    /** `create`: a repeated request answers with the job it made before. */
    method Submit(owner: string, family: string, key: string, id: string) returns (r: Reply<View>)
      requires Valid() && id !in jobs
      modifies this
      ensures Valid()
      ensures var spec := Create(old(Contents()), owner, family, key, id);
              Contents() == After(old(Contents()), spec) && r == Answer(spec)
    {
      hide Consistent, Joined, SameRequest, NewJob, Append, NextOrdinal;
      ghost var t := Rows();
      ghost var rows := Append([], Some(InvestigationQueued));
      RequestsAgree(t, owner, key);
      if exists prior | prior in jobs :: SameRequest(jobs[prior], owner, key) {
        var prior :| prior in jobs && SameRequest(jobs[prior], owner, key);
        return Ok(View(prior, Show(jobs[prior])));
      }
      var job := NewJob(|jobs| + 1, owner, family, key);
      NewJobAsks(|jobs| + 1, owner, family, key);
      jobs := jobs[id := job];
      events := events[id := []];
      Event(id, InvestigationQueued);
      assert Rows() == t.(jobs := t.jobs[id := job], events := t.events[id := rows]);
      InsertedRowsJoin(t, Rows(), id, job, rows);
      JoinedCount(t);
      return Ok(View(id, Stored(Queued)));
    }

    /** `decide`. `crash`: the process dies after the ledger's commit, so that the control plane's
        own transaction never commits and nobody is answered. */
    method Decide(owner: string, id: string, d: OwnerDecision, crash: bool) returns (r: Reply<View>)
      requires Valid()
      modifies this, ledger
      ensures Valid()
      ensures var spec := ControlPlane.Decide(old(Contents()), owner, id, d);
              && (crash ==> Contents() == DecideThenCrash(old(Contents()), owner, id, d))
              && (!crash ==> Contents() == After(old(Contents()), spec) && r == Answer(spec))
    {
      hide Consistent, Joined;
      ghost var t := Rows();
      JoinedRow(t, id);
      if id !in jobs || jobs[id].owner != owner {
        return NotFound;
      }
      var checkpoint := if jobs[id].checkpoint.Some? then jobs[id].checkpoint.value else "";
      if id in decisions {
        if checkpoint == "" || decisions[id].checkpoint != checkpoint {
          return Integrity;
        }
        if decisions[id].decision != d {
          return Conflict;
        }
        var told := ledger.EnsureDecision(id, DecisionRow(checkpoint, d));
        if told.Ok? {
          return Ok(View(id, Show(jobs[id])));
        }
        return if told.Conflict? then Conflict else Integrity;
      }
      if jobs[id].status != PausedApproval {
        return Conflict;
      }
      if checkpoint == "" {
        return Integrity;
      }
      var told := ledger.EnsureDecision(id, DecisionRow(checkpoint, d));
      if !told.Ok? {
        return if told.Conflict? then Conflict else Integrity;
      }
      if crash {
        return Conflict;
      }
      decisions := decisions[id := DecisionRow(checkpoint, d)];
      jobs := jobs[id := jobs[id].(status := Queued)];
      Event(id, DecisionRecorded(checkpoint, d.verdict));
      WrittenRowsJoin(t, Rows(), id, Change(t.jobs[id].(status := Queued), Some(DecisionRow(checkpoint, d)), Joined(t)[id].delivery,
                                            Some(DecisionRecorded(checkpoint, d.verdict))));
      return Ok(View(id, Stored(Queued)));
    }

    /** `claim_next`. Returning an error restores what the transaction began with. */
    method ClaimNext(now: Time, token: string) returns (r: Reply<Option<WorkerClaim>>)
      requires Valid()
      modifies this, ledger
      ensures Valid()
      ensures var spec := ControlPlane.ClaimNext(cfg, old(Contents()), now, token);
              Contents() == After(old(Contents()), spec) && r == Answer(spec)
    {
      hide Consistent, Joined, ReclaimAll, ReconcileAll, Reconcilable, AnyRunning, Deferred, First, Picks, Claimable, NoLater;
      var jobs0, events0, decisions0 := jobs, events, decisions;
      ReclaimExpiredInvestigations(now);
      ghost var reclaimed := Contents();
      var ok := ReconcileDurableDecisions();
      if !ok {
        jobs, events, decisions := jobs0, events0, decisions0;
        return Integrity;
      }
      ghost var t := Rows();
      ghost var ready := Contents();
      assert reclaimed == old(Contents()).(entries := ReclaimAll(cfg, old(Contents()).entries, now));
      QueriesAgree(t, now);
      if exists id | id in jobs :: jobs[id].status == Running {
        return Ok(None);
      }
      if exists id | id in jobs :: Waiting(jobs[id]) && jobs[id].incident.Some? && jobs[id].availableAt > now {
        return Ok(None);
      }
      if !exists id | id in jobs :: Picks(jobs, now, id) {
        return Ok(None);
      }
      var id :| id in jobs && Picks(jobs, now, id);
      assert First(ready.entries, now) == Some(id);
      JoinedRow(t, id);
      var row := jobs[id];
      jobs := jobs[id := jobs[id].(status := Running, token := Some(token), expiresAt := Some(now + cfg.lease))];
      Event(id, InvestigationStarted);
      WrittenRowsJoin(t, Rows(), id, ClaimChange(cfg, Joined(t)[id], now, token));
      var decision := None;
      if id in decisions {
        decision := Some(decisions[id].decision);
        var told := Integrity;
        if row.checkpoint.Some? && row.checkpoint.value != "" && decisions[id].checkpoint == row.checkpoint.value {
          told := ledger.EnsureDecision(id, decisions[id]);
        }
        if !told.Ok? {
          jobs, events, decisions := jobs0, events0, decisions0;
          return if told.Conflict? then Conflict else Integrity;
        }
      }
      return Ok(Some(WorkerClaim(id, row.owner, row.family, row.checkpoint, row.incident, decision, token)));
    }

    method MarkDelivered(id: string, token: string, now: Time) returns (r: Reply<()>)
      requires Valid()
      modifies this
      ensures Valid()
      ensures var spec := ControlPlane.MarkDelivered(old(Contents()), id, token, now);
              Contents() == After(old(Contents()), spec) && r == Answer(spec)
    {
      hide Consistent, Joined;
      ghost var t := Rows();
      JoinedRow(t, id);
      DeliveriesHaveJobs(t, id);
      if id !in deliveries || !CarriesNow(deliveries[id], token, now) {
        return Conflict;
      }
      deliveries := deliveries[id := deliveries[id].(status := Sent, token := None, expiresAt := None)];
      Event(id, ReportDelivered);
      WrittenRowsJoin(t, Rows(), id, DeliveredChange(Joined(t)[id], token, now).value);
      return Ok(());
    }

    method RenewDelivery(id: string, token: string, now: Time) returns (r: Reply<()>)
      requires Valid()
      modifies this
      ensures Valid()
      ensures var spec := ControlPlane.RenewDelivery(cfg, old(Contents()), id, token, now);
              Contents() == After(old(Contents()), spec) && r == Answer(spec)
    {
      hide Consistent, Joined;
      ghost var t := Rows();
      JoinedRow(t, id);
      DeliveriesHaveJobs(t, id);
      if id !in deliveries || !CarriesNow(deliveries[id], token, now) {
        return Conflict;
      }
      deliveries := deliveries[id := deliveries[id].(expiresAt := Some(now + cfg.lease))];
      WrittenRowsJoin(t, Rows(), id, RenewDeliveryChange(cfg, Joined(t)[id], token, now).value);
      return Ok(());
    }

    method ReleaseDelivery(id: string, token: string) returns (r: Reply<()>)
      requires Valid()
      modifies this
      ensures Valid()
      ensures var spec := ControlPlane.ReleaseDelivery(old(Contents()), id, token);
              Contents() == After(old(Contents()), spec) && r == Answer(spec)
    {
      hide Consistent, Joined;
      ghost var t := Rows();
      JoinedRow(t, id);
      DeliveriesHaveJobs(t, id);
      if id !in deliveries || !Carries(deliveries[id], token) {
        return Conflict;
      }
      deliveries := deliveries[id := deliveries[id].(status := Pending, token := None, expiresAt := None)];
      Event(id, DeliveryRequeued);
      WrittenRowsJoin(t, Rows(), id, ReleaseDeliveryChange(Joined(t)[id], token).value);
      return Ok(());
    }

    method RetryDelivery(id: string, token: string, now: Time, error: string) returns (r: Reply<bool>)
      requires Valid()
      modifies this
      ensures Valid()
      ensures var spec := ControlPlane.RetryDelivery(cfg, old(Contents()), id, token, now, error);
              Contents() == After(old(Contents()), spec) && r == Answer(spec)
    {
      hide Consistent, Joined;
      ghost var t := Rows();
      JoinedRow(t, id);
      DeliveriesHaveJobs(t, id);
      if id !in deliveries {
        return NotFound;
      }
      if !Carries(deliveries[id], token) {
        return Conflict;
      }
      ghost var c := RetryDeliveryChange(cfg, Joined(t)[id], token, now, error).value.0;
      var attempt := deliveries[id].attempts + 1;
      if attempt >= cfg.maxDelivery {
        deliveries := deliveries[id := deliveries[id].(status := Pending, token := None, expiresAt := None, attempts := attempt,
                                                       failure := Some(RetryLimit(error)))];
        Event(id, DeliveryFailed(attempt));
        WrittenRowsJoin(t, Rows(), id, c);
        return Ok(false);
      }
      var retryAt := now + RetryDelay(cfg, attempt);
      deliveries := deliveries[id := deliveries[id].(status := Pending, token := None, expiresAt := None, attempts := attempt,
                                                     availableAt := retryAt)];
      Event(id, DeliveryRetryScheduled(attempt, retryAt));
      WrittenRowsJoin(t, Rows(), id, c);
      return Ok(true);
    }

    /** `_reclaim_expired_deliveries` */
    method ReclaimExpiredDeliveries(now: Time)
      requires Valid()
      modifies `deliveries, `events
      ensures Valid()
      ensures Joined(Rows()) == ReclaimDeliveries(cfg, old(Joined(Rows())), now)
    {
      hide Consistent, Joined, Commit, ReclaimDeliveryChange;
      JoinedKeys(Rows());
      ghost var before := Joined(Rows());
      ghost var after := ReclaimDeliveries(cfg, before, now);
      var rows := set id | id in deliveries && DeliveryExpired(deliveries[id], now);
      forall id | id in before && id !in rows ensures after[id] == before[id] {
        JoinedRow(Rows(), id);
        UnexpiredDeliveryIsKept(cfg, before[id], now);
      }
      forall id | id in rows ensures id in jobs { DeliveriesHaveJobs(Rows(), id); }
      PartlyStarts(before, after, rows);
      while rows != {}
        invariant Consistent(Rows())
        invariant forall id | id in rows :: id in before && id in deliveries && DeliveryExpired(deliveries[id], now)
        invariant Joined(Rows()) == Partly(before, after, rows)
        decreases |rows|
      {
        var id :| id in rows;
        ReclaimOneDelivery(id, now);
        PartlyAdvances(before, after, rows, id);
        rows := rows - {id};
      }
      PartlyEnds(before, after);
    }

    method ReclaimOneDelivery(id: string, now: Time)
      requires Valid() && id in deliveries && DeliveryExpired(deliveries[id], now)
      modifies `deliveries, `events
      ensures Valid() && id in old(Joined(Rows()))
      ensures forall other | other != id && other in old(deliveries) :: other in deliveries && deliveries[other] == old(deliveries)[other]
      ensures var e := old(Joined(Rows()))[id];
              Joined(Rows()) == old(Joined(Rows()))[id := Commit(e, ReclaimDeliveryChange(cfg, e, now))]
    {
      hide Consistent, Joined;
      ghost var t := Rows();
      DeliveriesHaveJobs(t, id);
      JoinedRow(t, id);
      ghost var c := ReclaimDeliveryChange(cfg, Joined(t)[id], now);
      var attempt := deliveries[id].attempts + 1;
      if attempt >= cfg.maxDelivery {
        deliveries := deliveries[id := deliveries[id].(status := Pending, token := None, expiresAt := None, attempts := attempt,
                                                       failure := Some(RetryLimit("lease_expired")))];
        Event(id, DeliveryFailed(attempt));
        WrittenRowsJoin(t, Rows(), id, c);
        return;
      }
      var retryAt := now + RetryDelay(cfg, attempt);
      deliveries := deliveries[id := deliveries[id].(status := Pending, token := None, expiresAt := None, attempts := attempt,
                                                     availableAt := retryAt)];
      Event(id, DeliveryLeaseExpired(attempt, retryAt));
      WrittenRowsJoin(t, Rows(), id, c);
    }

    method ClaimDelivery(now: Time, token: string) returns (r: Reply<Option<DeliveryClaim>>)
      requires Valid()
      modifies this
      ensures Valid()
      ensures var spec := ControlPlane.ClaimDelivery(cfg, old(Contents()), now, token);
              Contents() == After(old(Contents()), spec) && r == Answer(spec)
    {
      hide Consistent, Joined, ReclaimDeliveries, FirstDelivery, PicksDelivery;
      ReclaimExpiredDeliveries(now);
      ghost var t := Rows();
      DeliveryQueryAgrees(t, now);
      if !exists id | id in deliveries :: PicksDelivery(jobs, deliveries, now, id) {
        return Ok(None);
      }
      var id :| id in deliveries && PicksDelivery(jobs, deliveries, now, id);
      DeliveriesHaveJobs(t, id);
      JoinedRow(t, id);
      deliveries := deliveries[id := deliveries[id].(status := Sending, token := Some(token), expiresAt := Some(now + cfg.lease))];
      WrittenRowsJoin(t, Rows(), id, ClaimDeliveryChange(cfg, Joined(t)[id], now, token));
      return Ok(Some(DeliveryClaim(id, jobs[id].artifact, jobs[id].content, jobs[id].digest, deliveries[id].destination, token)));
    }

    /** `report` */
    method ReadReport(owner: string, id: string) returns (r: Reply<string>)
      requires Valid()
      ensures r == Report(Contents(), owner, id)
    {
      hide Consistent, Joined;
      JoinedRow(Rows(), id);
      if id !in jobs || jobs[id].owner != owner {
        return NotFound;
      }
      if jobs[id].status != Completed {
        return Conflict;
      }
      var artifact, content, digest := jobs[id].artifact, jobs[id].content, jobs[id].digest;
      if artifact.None? || content.None? || digest.None? {
        return Integrity;
      }
      if !OwnReport(id, artifact.value) || Sha256(content.value) != digest.value {
        return Integrity;
      }
      return Ok(content.value);
    }

    /** `status` */
    method ReadStatus(owner: string, id: string) returns (r: Reply<View>)
      requires Valid()
      ensures r == StatusOf(Contents(), owner, id)
    {
      hide Consistent, Joined;
      JoinedRow(Rows(), id);
      if id !in jobs || jobs[id].owner != owner {
        return NotFound;
      }
      return Ok(View(id, Show(jobs[id])));
    }
  }
}

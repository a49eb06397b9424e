/** The Firestore control plane as the object it is: document collections changed under one lock.
    Only the operations it implements differently from SQLite are written out; each is proved to be
    the function of the same name in `Hosted`. */
module FirestorePlane {
  import opened Wrappers
  import opened Text
  import opened Decisions
  import opened ControlPlane
  import opened PlaneRuns
  import opened PlaneSteps
  import opened Sweep
  import Hosted

  datatype DeliveryDocument = DeliveryDocument(sequence: nat, delivery: Delivery)

  /** A job document keeps its `sequence` in `position`, counted from zero. */
  datatype Documents = Documents(
    jobs: map<string, Job>,
    events: map<string, seq<EventRow>>,
    decisions: map<string, DecisionRow>,
    deliveries: map<string, DeliveryDocument>)

  function Ranked(job: Job): Job {
    job.(position := job.position + 1)
  }

  function RowOf(d: Documents, id: string): Entry
    requires id in d.jobs && id in d.events
  {
    Entry(Ranked(d.jobs[id]), d.events[id],
          if id in d.decisions then Some(d.decisions[id]) else None,
          if id in d.deliveries then Some(d.deliveries[id].delivery) else None)
  }

  function StoreOf(d: Documents): Hosted.Store {
    Hosted.Store(
      map id | id in d.jobs && id in d.events :: RowOf(d, id),
      map id | id in d.deliveries :: d.deliveries[id].sequence)
  }

  ghost predicate Consistent(d: Documents) {
    && d.events.Keys == d.jobs.Keys
    && d.decisions.Keys <= d.jobs.Keys
    && d.deliveries.Keys <= d.jobs.Keys
    && Positioned(StoreOf(d).entries)
    && UniqueRequests(StoreOf(d).entries)
    && Hosted.TakesTurns(StoreOf(d))
  }

  lemma DocumentOf(d: Documents, id: string)
    requires Consistent(d)
    ensures id in StoreOf(d).entries <==> id in d.jobs
    ensures id in d.jobs ==> id in d.events && StoreOf(d).entries[id] == RowOf(d, id)
    ensures id in StoreOf(d).turns <==> id in d.deliveries
    ensures id in d.deliveries ==> id in d.jobs && StoreOf(d).turns[id] == d.deliveries[id].sequence
  {
    hide Positioned, UniqueRequests, Hosted.TakesTurns, RowOf;
  }

  /** What setting one job's documents and appending its event does. */
  ghost predicate Set(d: Documents, d': Documents, id: string, c: Change) {
    && id in d.jobs && id in d.events
    && id in d'.jobs && Ranked(d'.jobs[id]) == c.job && d'.jobs == d.jobs[id := d'.jobs[id]]
    && d'.events == (if c.event.Some? then d.events[id := d.events[id] + [EventRow(|d.events[id]|, c.event.value)]] else d.events)
    && d'.decisions == (if c.mirror.Some? then d.decisions[id := c.mirror.value] else d.decisions)
    && (c.mirror.None? ==> id !in d.decisions)
    && (c.delivery.None? ==> id !in d.deliveries && d'.deliveries == d.deliveries)
    && (c.delivery.Some? ==> id in d'.deliveries && d'.deliveries[id].delivery == c.delivery.value
                             && d'.deliveries == d.deliveries[id := d'.deliveries[id]])
  }

  lemma SetRow(d: Documents, d': Documents, id: string, c: Change)
    requires Set(d, d', id, c)
    ensures id in d'.events && RowOf(d', id) == Hosted.CommitByCount(RowOf(d, id), c)
  {
  }

  lemma OtherRow(d: Documents, d': Documents, id: string, c: Change, other: string)
    requires Set(d, d', id, c) && other != id && other in d.jobs && other in d.events
    ensures other in d'.jobs && other in d'.events && RowOf(d', other) == RowOf(d, other)
  {
  }

  lemma SetKeys(d: Documents, d': Documents, id: string, c: Change)
    requires d.events.Keys == d.jobs.Keys && Set(d, d', id, c)
    ensures d'.events.Keys == d'.jobs.Keys == d.jobs.Keys
    ensures d.decisions.Keys <= d.jobs.Keys ==> d'.decisions.Keys <= d'.jobs.Keys
    ensures d.deliveries.Keys <= d.jobs.Keys ==> d'.deliveries.Keys <= d'.jobs.Keys
    ensures id in d'.deliveries <==> c.delivery.Some?
  {
    assert d'.jobs.Keys == d.jobs.Keys && d'.events.Keys == d.events.Keys;
  }

  lemma SetJoins(d: Documents, d': Documents, id: string, c: Change)
    requires d.events.Keys == d.jobs.Keys && Set(d, d', id, c)
    ensures StoreOf(d').entries == StoreOf(d).entries[id := Hosted.CommitByCount(StoreOf(d).entries[id], c)]
  {
    hide Set, Hosted.CommitByCount, RowOf;
    SetKeys(d, d', id, c);
    assert id in d.jobs by { SetRowExists(d, d', id, c); }
    SetRow(d, d', id, c);
    var after := StoreOf(d).entries[id := Hosted.CommitByCount(StoreOf(d).entries[id], c)];
    forall other | other in d.jobs ensures StoreOf(d').entries[other] == after[other] {
      if other != id { OtherRow(d, d', id, c, other); }
    }
    assert StoreOf(d').entries == after;
  }

  lemma SetRowExists(d: Documents, d': Documents, id: string, c: Change)
    requires Set(d, d', id, c)
    ensures id in d.jobs && id in d.events
  {
  }

  lemma ReplacedKeepsIdentity(entries: Entries, id: string, e: Entry)
    requires Positioned(entries) && UniqueRequests(entries) && id in entries && SameIdentity(entries[id].job, e.job)
    ensures Positioned(entries[id := e]) && UniqueRequests(entries[id := e])
  {
    hide Positioned, UniqueRequests;
    var after := entries[id := e];
    assert after.Keys == entries.Keys;
    forall other | other in entries ensures SameIdentity(entries[other].job, after[other].job) {
      assert other != id ==> after[other] == entries[other];
    }
    IdentityIsKept(entries, after);
  }

  lemma TurnKeys(d: Documents)
    ensures StoreOf(d).turns.Keys == d.deliveries.Keys
  {
    hide RowOf;
  }

  lemma TurnsAreKept(h: Hosted.Store, h': Hosted.Store, id: string, e: Entry)
    requires Hosted.TakesTurns(h) && id in h.entries && h'.turns == h.turns
    requires h'.entries == h.entries[id := e]
    requires id in h.turns <==> e.delivery.Some?
    ensures Hosted.TakesTurns(h')
  {
    forall other | other in h'.entries ensures other in h'.turns <==> h'.entries[other].delivery.Some? {
      if other != id { assert h'.entries[other] == h.entries[other]; }
    }
  }

  /** A change that leaves every delivery's turn alone. */
  lemma SetKeepsConsistent(d: Documents, d': Documents, id: string, c: Change)
    requires Consistent(d) && Set(d, d', id, c) && SameIdentity(Ranked(d.jobs[id]), c.job)
    requires StoreOf(d').turns == StoreOf(d).turns
    ensures Consistent(d')
    ensures StoreOf(d') == Hosted.Put(StoreOf(d), id, c)
  {
    SetJoins(d, d', id, c);
    SetKeys(d, d', id, c);
    DocumentOf(d, id);
    TurnKeys(d);
    TurnKeys(d');
    var e := Hosted.CommitByCount(StoreOf(d).entries[id], c);
    assert e.job == c.job && e.delivery == c.delivery;
    assert StoreOf(d).entries[id].job == Ranked(d.jobs[id]);
    hide Positioned, UniqueRequests, Hosted.CommitByCount, SameIdentity, RowOf, StoreOf, Hosted.TakesTurns, Set;
    TurnsAreKept(StoreOf(d), StoreOf(d'), id, e);
    ReplacedKeepsIdentity(StoreOf(d).entries, id, e);
  }

  // ---------------------------------------------------------------- what the queries see

  lemma JobDocuments(d: Documents)
    requires Consistent(d)
    ensures var rows := StoreOf(d).entries;
            && rows.Keys == d.jobs.Keys
            && (forall id | id in rows :: id in d.jobs && rows[id].job == Ranked(d.jobs[id]))
            && (forall id | id in rows :: rows[id].delivery == if id in d.deliveries then Some(d.deliveries[id].delivery) else None)
  {
    hide Positioned, UniqueRequests, Hosted.TakesTurns;
  }

  /** A minimum under `sort(key=...)`. */
  ghost predicate SortsFirst(jobs: map<string, Job>, candidates: set<string>, id: string) {
    id in candidates && id in jobs && forall other | other in candidates && other in jobs :: NoLater(jobs[id], jobs[other])
  }

  lemma RankingKeepsTheOrder(a: Job, b: Job, now: Time)
    ensures NoLater(Ranked(a), Ranked(b)) <==> NoLater(a, b)
    ensures Claimable(Ranked(a), now) <==> Claimable(a, now)
  {
  }

  lemma SortedIsFirst(d: Documents, now: Time, candidates: set<string>, id: string)
    requires Consistent(d)
    requires forall other :: other in candidates <==> other in d.jobs && Claimable(d.jobs[other], now)
    ensures candidates == {} ==> First(StoreOf(d).entries, now) == None
    ensures SortsFirst(d.jobs, candidates, id) ==> First(StoreOf(d).entries, now) == Some(id)
  {
    JobDocuments(d);
    assert Positioned(StoreOf(d).entries);
    hide Consistent, StoreOf, Positioned, NoLater, Claimable, Ranked;
    var rows := StoreOf(d).entries;
    forall other | other in rows ensures Claimable(rows[other].job, now) <==> other in candidates {
      RankingKeepsTheOrder(d.jobs[other], d.jobs[other], now);
    }
    if SortsFirst(d.jobs, candidates, id) {
      forall other | other in rows && Claimable(rows[other].job, now) ensures NoLater(rows[id].job, rows[other].job) {
        RankingKeepsTheOrder(d.jobs[id], d.jobs[other], now);
      }
      assert IsFirst(rows, now, id);
      FirstIsUnique(rows, now, id);
    }
  }

  ghost predicate SortsFirstDelivery(deliveries: map<string, DeliveryDocument>, candidates: set<string>, id: string) {
    && id in candidates && id in deliveries
    && forall other | other in candidates && other in deliveries :: Sooner(deliveries[id], deliveries[other])
  }

  predicate Sooner(a: DeliveryDocument, b: DeliveryDocument) {
    if a.delivery.availableAt != b.delivery.availableAt then a.delivery.availableAt < b.delivery.availableAt
    else a.sequence <= b.sequence
  }

  predicate Pickable(d: Delivery, now: Time) {
    d.status == Pending && d.failure.None? && d.availableAt <= now
  }

  lemma SortedIsNextTurn(d: Documents, now: Time, candidates: set<string>, id: string)
    requires Consistent(d)
    requires forall other :: other in candidates <==> other in d.deliveries && Pickable(d.deliveries[other].delivery, now)
    ensures candidates == {} ==> Hosted.NextTurn(StoreOf(d), now) == None
    ensures SortsFirstDelivery(d.deliveries, candidates, id) ==> Hosted.NextTurn(StoreOf(d), now) == Some(id)
  {
    hide StoreOf, Consistent, Deliverable, Pickable, Hosted.TakesTurns, RowOf, Sooner;
    var h := StoreOf(d);
    forall other
      ensures other in h.entries && Deliverable(h.entries[other], now) && other in h.turns <==> other in candidates
      ensures other in d.deliveries ==> other in h.entries && h.entries[other].delivery == Some(d.deliveries[other].delivery)
      ensures other in d.deliveries ==> other in h.turns && h.turns[other] == d.deliveries[other].sequence
    {
      DeliveryDocuments(d, other, now);
    }
    if SortsFirstDelivery(d.deliveries, candidates, id) {
      SoonestIsNext(d, h, now, id);
      TurnsOf(d);
      Hosted.NextTurnIsUnique(h, now, id);
    } else if candidates == {} {
      assert forall other :: !Hosted.IsNextTurn(h, now, other);
    }
  }

  lemma TurnsOf(d: Documents)
    requires Consistent(d)
    ensures Hosted.TakesTurns(StoreOf(d))
  {
    hide StoreOf, Hosted.TakesTurns, Positioned, UniqueRequests;
  }

  lemma DeliveryDocuments(d: Documents, id: string, now: Time)
    requires Consistent(d)
    ensures var h := StoreOf(d);
            && (id in h.entries && Deliverable(h.entries[id], now) && id in h.turns <==>
                  id in d.deliveries && Pickable(d.deliveries[id].delivery, now))
            && (id in d.deliveries ==>
                  id in h.entries && h.entries[id].delivery == Some(d.deliveries[id].delivery)
                  && id in h.turns && h.turns[id] == d.deliveries[id].sequence)
  {
    DocumentOf(d, id);
    hide StoreOf, Consistent;
  }

  lemma SoonestIsNext(d: Documents, h: Hosted.Store, now: Time, id: string)
    requires id in d.deliveries && id in h.entries && id in h.turns && Deliverable(h.entries[id], now)
    requires forall other | other in d.deliveries ::
               other in h.entries && h.entries[other].delivery == Some(d.deliveries[other].delivery)
               && other in h.turns && h.turns[other] == d.deliveries[other].sequence
    requires forall other | other in h.entries && Deliverable(h.entries[other], now) && other in h.turns ::
               other in d.deliveries && Sooner(d.deliveries[id], d.deliveries[other])
    ensures Hosted.IsNextTurn(h, now, id)
  {
    hide Deliverable;
  }

  class FirestoreReplayControlPlane {
    const cfg: Config
    var jobs: map<string, Job>
    var events: map<string, seq<EventRow>>
    var decisions: map<string, DecisionRow>
    var deliveries: map<string, DeliveryDocument>

    function Rows(): Documents
      reads this
    {
      Documents(jobs, events, decisions, deliveries)
    }

    ghost predicate Valid()
      reads this
    {
      cfg.Valid() && Consistent(Rows())
    }

    function Contents(): Hosted.Store
      reads this
    {
      StoreOf(Rows())
    }

    constructor (cfg: Config)
      requires cfg.Valid()
      ensures Valid() && this.cfg == cfg && Contents() == Hosted.Store(map[], map[])
    {
      this.cfg := cfg;
      jobs, events, decisions, deliveries := map[], map[], map[], map[];
    }

    /** `_event` and `_stage_event` */
    method Event(id: string, event: Event)
      requires id in events
      modifies `events
      ensures events == old(events)[id := old(events)[id] + [EventRow(|old(events)[id]|, event)]]
    {
      events := events[id := events[id] + [EventRow(|events[id]|, event)]];
    }

    method Decide(owner: string, id: string, d: OwnerDecision) returns (r: Reply<View>)
      requires Valid()
      modifies this
      ensures Valid()
      ensures (Contents(), r) == Hosted.Decide(old(Contents()), owner, id, d)
    {
      hide Consistent, StoreOf;
      ghost var docs := Rows();
      DocumentOf(docs, id);
      if id !in jobs || jobs[id].owner != owner {
        return NotFound;
      }
      var job := jobs[id];
      if id in decisions {
        if job.checkpoint.None? || job.checkpoint.value == "" || decisions[id].checkpoint != job.checkpoint.value {
          return Integrity;
        }
        if decisions[id].decision != d {
          return Conflict;
        }
        return Ok(View(id, Show(job)));
      }
      if job.status != PausedApproval {
        return Conflict;
      }
      if job.checkpoint.None? || job.checkpoint.value == "" {
        return Integrity;
      }
      var checkpoint := job.checkpoint.value;
      job := job.(status := Queued);
      decisions := decisions[id := DecisionRow(checkpoint, d)];
      jobs := jobs[id := job];
      Event(id, DecisionRecorded(checkpoint, d.verdict));
      SameDeliveriesSameTurns(docs, Rows());
      SetKeepsConsistent(docs, Rows(), id,
        Change(Ranked(job), Some(DecisionRow(checkpoint, d)), RowOf(docs, id).delivery, Some(DecisionRecorded(checkpoint, d.verdict))));
      return Ok(View(id, Stored(Queued)));
    }

    method ReclaimOne(id: string, now: Time)
      requires Valid() && id in jobs && Expired(jobs[id], now)
      modifies `jobs, `events
      ensures Valid() && id in old(Contents()).entries
      ensures forall other | other != id && other in old(jobs) :: other in jobs && jobs[other] == old(jobs)[other]
      ensures Contents() == Hosted.Put(old(Contents()), id, ReclaimChange(cfg, old(Contents()).entries[id], now))
    {
      hide Consistent, StoreOf;
      ghost var docs := Rows();
      DocumentOf(docs, id);
      ghost var c := ReclaimChange(cfg, RowOf(docs, id), now);
      var data := jobs[id];
      var attempt := data.attempts + 1;
      if attempt >= cfg.maxReplay {
        data := data.(status := Queued, token := None, expiresAt := None, attempts := attempt, failure := Some(RetryLimit("lease_expired")));
        jobs := jobs[id := data];
        Event(id, InvestigationFailed(attempt));
      } else {
        var retryAt := now + RetryDelay(cfg, attempt);
        data := data.(status := Queued, token := None, expiresAt := None, attempts := attempt, availableAt := retryAt);
        jobs := jobs[id := data];
        Event(id, LeaseExpired(attempt, retryAt));
      }
      SameDeliveriesSameTurns(docs, Rows());
      SetKeepsConsistent(docs, Rows(), id, c);
    }

    /** `_reclaim_expired_investigations` */
    method ReclaimExpiredInvestigations(now: Time)
      requires Valid()
      modifies `jobs, `events
      ensures Valid()
      ensures Contents() == old(Contents()).(entries := Hosted.ReclaimByCount(cfg, old(Contents()).entries, now))
    {
      hide Consistent, StoreOf, RowOf, Hosted.CommitByCount, ReclaimChange, Expired, Hosted.ReclaimByCount;
      ghost var h := Contents();
      ghost var before, after := h.entries, Hosted.ReclaimByCount(cfg, h.entries, now);
      var rows := set id | id in jobs && Expired(jobs[id], now);
      OnlyExpiredJobsChange(cfg, Rows(), now, rows);
      PartlyStarts(before, after, rows);
      while rows != {}
        invariant Consistent(Rows()) && decisions == old(decisions) && deliveries == old(deliveries)
        invariant forall id | id in rows :: id in before && id in jobs && Expired(jobs[id], now)
        invariant Contents() == h.(entries := Partly(before, after, rows))
        decreases |rows|
      {
        var id :| id in rows;
        ReclaimOne(id, now);
        ReclaimedJobByCount(cfg, before, now, id);
        PartlyAdvances(before, after, rows, id);
        rows := rows - {id};
      }
      PartlyEnds(before, after);
    }

    /** The head of `candidates` once sorted by (incident first, available_at, sequence). */
    method HeadOfQueue(candidates: set<string>) returns (best: string)
      requires candidates != {} && candidates <= jobs.Keys
      ensures SortsFirst(jobs, candidates, best)
    {
      best :| best in candidates;
      var rest := candidates - {best};
      while rest != {}
        invariant rest <= candidates && best in candidates && best !in rest
        invariant forall other | other in candidates && other !in rest :: NoLater(jobs[best], jobs[other])
        decreases |rest|
      {
        var next :| next in rest;
        if !NoLater(jobs[best], jobs[next]) {
          best := next;
        }
        rest := rest - {next};
      }
    }

    method Start(id: string, now: Time, token: string) returns (r: Reply<Option<WorkerClaim>>)
      requires Valid() && id in jobs
      modifies this
      ensures Valid() && id in old(Contents()).entries
      ensures (Contents(), r) == Hosted.Start(cfg, old(Contents()), id, now, token)
    {
      hide Consistent, StoreOf, Hosted.Put;
      ghost var docs := Rows();
      DocumentOf(docs, id);
      var row := jobs[id];
      row := row.(status := Running, token := Some(token), expiresAt := Some(now + cfg.lease));
      jobs := jobs[id := row];
      Event(id, InvestigationStarted);
      SameDeliveriesSameTurns(docs, Rows());
      SetKeepsConsistent(docs, Rows(), id, ClaimChange(cfg, RowOf(docs, id), now, token));
      var decision := None;
      if id in decisions {
        decision := Some(decisions[id].decision);
        if row.checkpoint.None? || row.checkpoint.value == "" || decisions[id].checkpoint != row.checkpoint.value {
          return Integrity;
        }
      }
      return Ok(Some(WorkerClaim(id, row.owner, row.family, row.checkpoint, row.incident, decision, token)));
    }

    method ClaimNext(now: Time, token: string) returns (r: Reply<Option<WorkerClaim>>)
      requires Valid()
      modifies this
      ensures Valid()
      ensures (Contents(), r) == Hosted.ClaimNext(cfg, old(Contents()), now, token)
    {
      hide Consistent, StoreOf, Hosted.ReclaimByCount, Hosted.Start, SortsFirst, First;
      ReclaimExpiredInvestigations(now);
      ghost var docs := Rows();
      QueriesSeeJobs(docs, now);
      if exists id | id in jobs :: jobs[id].status == Running {
        return Ok(None);
      }
      var queued := set id | id in jobs && jobs[id].status == Queued && jobs[id].failure.None?;
      if exists id | id in queued :: jobs[id].incident.Some? && jobs[id].availableAt > now {
        return Ok(None);
      }
      var candidates := set id | id in queued && jobs[id].availableAt <= now;
      if candidates == {} {
        SortedIsFirst(docs, now, candidates, "");
        return Ok(None);
      }
      var id := HeadOfQueue(candidates);
      SortedIsFirst(docs, now, candidates, id);
      FirstIsAmong(docs, candidates, id);
      r := Start(id, now, token);
    }

    /** `create` */
    method Submit(owner: string, family: string, key: string, id: string) returns (r: Reply<View>)
      requires Valid() && id !in jobs
      modifies this
      ensures Valid()
      ensures (Contents(), r) == Hosted.Create(old(Contents()), owner, family, key, id)
    {
      hide Consistent, StoreOf, SameRequest, NewJob;
      ghost var docs := Rows();
      RequestsSeen(docs, owner, key);
      if exists prior | prior in jobs :: SameRequest(jobs[prior], owner, key) {
        var prior :| prior in jobs && SameRequest(jobs[prior], owner, key);
        return Ok(View(prior, Show(jobs[prior])));
      }
      var sequence := |jobs|;
      jobs := jobs[id := NewJob(sequence, owner, family, key)];
      events := events[id := [EventRow(0, InvestigationQueued)]];
      InsertedDocuments(docs, Rows(), id, owner, family, key);
      return Ok(View(id, Stored(Queued)));
    }

    method FinalizeReport(id: string, artifact: string, token: string, now: Time, snapshot: Option<string>) returns (r: Reply<()>)
      requires Valid()
      modifies this
      ensures !r.Ok? || id !in old(deliveries) ==> Valid()
      ensures (Contents(), r) == Hosted.Finalize(old(Contents()), id, artifact, token, now, snapshot)
      ensures !r.Ok? ==> Rows() == old(Rows())
    {
      hide Consistent, StoreOf, OwnReport, IsBlank, Hosted.Put, Show;
      ghost var docs := Rows();
      DocumentOf(docs, id);
      if IsBlank(artifact) {
        return Invalid;
      }
      if id !in jobs {
        return NotFound;
      }
      var data := jobs[id];
      if data.status == Completed || !Current(data, token, now) {
        return Conflict;
      }
      if !OwnReport(id, artifact) || snapshot.None? {
        return Invalid;
      }
      data := data.(status := Completed, artifact := Some(artifact), content := snapshot, digest := Some(Sha256(snapshot.value)),
                    token := None, expiresAt := None);
      var sequence := |deliveries|;
      jobs := jobs[id := data];
      deliveries := deliveries[id := DeliveryDocument(sequence, FreshDelivery(data.owner))];
      Event(id, ReportFinalized);
      ghost var c := FinalizeChange(id, RowOf(docs, id).(delivery := None), artifact, token, now, snapshot).value;
      FinalizedContents(docs, Rows(), id, c);
      if id !in docs.deliveries {
        FinalizedDocuments(docs, Rows(), id, c);
      }
      return Ok(());
    }

    method ReclaimOneDelivery(id: string, now: Time)
      requires Valid() && id in deliveries && DeliveryExpired(deliveries[id].delivery, now)
      modifies `deliveries, `events
      ensures Valid() && id in old(Contents()).entries
      ensures forall other | other != id && other in old(deliveries) :: other in deliveries && deliveries[other] == old(deliveries)[other]
      ensures Contents() == Hosted.Put(old(Contents()), id, ReclaimDeliveryChange(cfg, old(Contents()).entries[id], now))
    {
      hide Consistent, StoreOf;
      ghost var docs := Rows();
      DocumentOf(docs, id);
      ghost var c := ReclaimDeliveryChange(cfg, RowOf(docs, id), now);
      var data := deliveries[id].delivery;
      var attempt := data.attempts + 1;
      if attempt >= cfg.maxDelivery {
        data := data.(status := Pending, token := None, expiresAt := None, attempts := attempt, failure := Some(RetryLimit("lease_expired")));
        deliveries := deliveries[id := deliveries[id].(delivery := data)];
        Event(id, DeliveryFailed(attempt));
      } else {
        var retryAt := now + RetryDelay(cfg, attempt);
        data := data.(status := Pending, token := None, expiresAt := None, attempts := attempt, availableAt := retryAt);
        deliveries := deliveries[id := deliveries[id].(delivery := data)];
        Event(id, DeliveryLeaseExpired(attempt, retryAt));
      }
      SameSequencesSameTurns(docs, Rows(), id);
      SetKeepsConsistent(docs, Rows(), id, c);
    }

    /** `_reclaim_expired_deliveries` */
    method ReclaimExpiredDeliveries(now: Time)
      requires Valid()
      modifies `deliveries, `events
      ensures Valid()
      ensures Contents() == Hosted.Outbox(cfg, old(Contents()), now)
    {
      hide Consistent, StoreOf, RowOf, Hosted.CommitByCount, ReclaimDeliveryChange, DeliveryExpired, Hosted.ReclaimDeliveriesByCount;
      ghost var h := Contents();
      ghost var before, after := h.entries, Hosted.ReclaimDeliveriesByCount(cfg, h.entries, now);
      var rows := set id | id in deliveries && DeliveryExpired(deliveries[id].delivery, now);
      OnlyExpiredDeliveriesChange(cfg, Rows(), now, rows);
      PartlyStarts(before, after, rows);
      while rows != {}
        invariant Consistent(Rows()) && jobs == old(jobs) && decisions == old(decisions)
        invariant forall id | id in rows :: id in before && id in deliveries && DeliveryExpired(deliveries[id].delivery, now)
        invariant Contents() == h.(entries := Partly(before, after, rows))
        decreases |rows|
      {
        var id :| id in rows;
        ReclaimOneDelivery(id, now);
        ReclaimedByCount(cfg, before, now, id);
        PartlyAdvances(before, after, rows, id);
        rows := rows - {id};
      }
      PartlyEnds(before, after);
    }

    /** The head of `candidates` once sorted by (available_at, sequence). */
    method HeadOfOutbox(candidates: set<string>) returns (best: string)
      requires candidates != {} && candidates <= deliveries.Keys
      ensures SortsFirstDelivery(deliveries, candidates, best)
    {
      best :| best in candidates;
      var rest := candidates - {best};
      while rest != {}
        invariant rest <= candidates && best in candidates && best !in rest
        invariant forall other | other in candidates && other !in rest :: Sooner(deliveries[best], deliveries[other])
        decreases |rest|
      {
        var next :| next in rest;
        if !Sooner(deliveries[best], deliveries[next]) {
          best := next;
        }
        rest := rest - {next};
      }
    }

    method ClaimDelivery(now: Time, token: string) returns (r: Reply<Option<DeliveryClaim>>)
      requires Valid()
      modifies this
      ensures Valid()
      ensures (Contents(), r) == Hosted.ClaimDelivery(cfg, old(Contents()), now, token)
    {
      hide Consistent, StoreOf, Hosted.ReclaimDeliveriesByCount, Hosted.Put, Hosted.NextTurn, SortsFirstDelivery;
      ReclaimExpiredDeliveries(now);
      ghost var docs := Rows();
      var candidates := set id | id in deliveries && Pickable(deliveries[id].delivery, now);
      if candidates == {} {
        SortedIsNextTurn(docs, now, candidates, "");
        return Ok(None);
      }
      var id := HeadOfOutbox(candidates);
      SortedIsNextTurn(docs, now, candidates, id);
      NextIsAmong(docs, candidates, id);
      DocumentOf(docs, id);
      var delivery := deliveries[id].delivery;
      delivery := delivery.(status := Sending, token := Some(token), expiresAt := Some(now + cfg.lease));
      deliveries := deliveries[id := deliveries[id].(delivery := delivery)];
      SameSequencesSameTurns(docs, Rows(), id);
      SetKeepsConsistent(docs, Rows(), id, ClaimDeliveryChange(cfg, RowOf(docs, id), now, token));
      return Ok(Some(DeliveryClaim(id, jobs[id].artifact, jobs[id].content, jobs[id].digest, delivery.destination, token)));
    }
  }

  lemma OnlyExpiredJobsChange(cfg: Config, d: Documents, now: Time, rows: set<string>)
    requires Consistent(d)
    requires rows == set id | id in d.jobs && Expired(d.jobs[id], now)
    ensures var before := StoreOf(d).entries;
            var after := Hosted.ReclaimByCount(cfg, before, now);
            && after.Keys == before.Keys
            && (forall id | id in before && id !in rows :: after[id] == before[id])
            && (forall id | id in rows :: id in before)
  {
    hide Consistent, StoreOf, Hosted.CommitByCount, ReclaimChange;
    JobDocuments(d);
    var before := StoreOf(d).entries;
    forall id | id in before && id !in rows ensures Hosted.ReclaimByCount(cfg, before, now)[id] == before[id] {
      UnexpiredIsKeptByCount(cfg, before[id], now);
    }
  }

  lemma ReclaimedJobByCount(cfg: Config, before: Entries, now: Time, id: string)
    requires id in before
    ensures Hosted.ReclaimByCount(cfg, before, now)[id] == Hosted.CommitByCount(before[id], ReclaimChange(cfg, before[id], now))
  {
    hide Hosted.CommitByCount, ReclaimChange;
  }

  lemma OnlyExpiredDeliveriesChange(cfg: Config, d: Documents, now: Time, rows: set<string>)
    requires Consistent(d)
    requires rows == set id | id in d.deliveries && DeliveryExpired(d.deliveries[id].delivery, now)
    ensures var before := StoreOf(d).entries;
            var after := Hosted.ReclaimDeliveriesByCount(cfg, before, now);
            && after.Keys == before.Keys
            && (forall id | id in before && id !in rows :: after[id] == before[id])
            && (forall id | id in rows :: id in before)
  {
    hide Consistent, StoreOf, Hosted.CommitByCount, ReclaimDeliveryChange, DeliveryExpired;
    JobDocuments(d);
    var before := StoreOf(d).entries;
    forall id | id in before && id !in rows ensures Hosted.ReclaimDeliveriesByCount(cfg, before, now)[id] == before[id] {
      DocumentOf(d, id);
      UnexpiredDeliveryIsKeptByCount(cfg, before[id], now);
    }
    forall id | id in rows ensures id in before { DocumentOf(d, id); }
  }

  lemma ReclaimedByCount(cfg: Config, before: Entries, now: Time, id: string)
    requires id in before
    ensures Hosted.ReclaimDeliveriesByCount(cfg, before, now)[id]
         == Hosted.CommitByCount(before[id], ReclaimDeliveryChange(cfg, before[id], now))
  {
    hide Hosted.CommitByCount, ReclaimDeliveryChange;
  }

  lemma NextIsAmong(d: Documents, candidates: set<string>, id: string)
    requires SortsFirstDelivery(d.deliveries, candidates, id)
    ensures id in candidates
  {
  }

  lemma SameSequencesSameTurns(d: Documents, d': Documents, id: string)
    requires id in d.deliveries && id in d'.deliveries && d'.deliveries == d.deliveries[id := d'.deliveries[id]]
    requires d'.deliveries[id].sequence == d.deliveries[id].sequence
    ensures StoreOf(d').turns == StoreOf(d).turns
  {
    hide RowOf;
    assert d'.deliveries.Keys == d.deliveries.Keys;
  }

  lemma UnexpiredDeliveryIsKeptByCount(cfg: Config, e: Entry, now: Time)
    requires e.delivery.Some? ==> !DeliveryExpired(e.delivery.value, now)
    ensures Hosted.CommitByCount(e, ReclaimDeliveryChange(cfg, e, now)) == e
  {
  }

  lemma RequestsSeen(d: Documents, owner: string, key: string)
    requires Consistent(d)
    ensures forall prior | prior in d.jobs && SameRequest(d.jobs[prior], owner, key) ::
              && prior in StoreOf(d).entries && Show(StoreOf(d).entries[prior].job) == Show(d.jobs[prior])
              && forall other | other in StoreOf(d).entries && SameRequest(StoreOf(d).entries[other].job, owner, key) :: other == prior
    ensures (exists prior :: prior in StoreOf(d).entries && SameRequest(StoreOf(d).entries[prior].job, owner, key)) <==>
            (exists prior :: prior in d.jobs && SameRequest(d.jobs[prior], owner, key))
  {
    hide RowOf, Hosted.TakesTurns;
    JobDocuments(d);
    assert UniqueRequests(StoreOf(d).entries);
    hide StoreOf, Consistent, Positioned;
    var rows := StoreOf(d).entries;
    forall id | id in rows
      ensures SameRequest(rows[id].job, owner, key) <==> SameRequest(d.jobs[id], owner, key)
      ensures Show(rows[id].job) == Show(d.jobs[id])
    {
    }
    hide Ranked, Show;
    forall prior, other | prior in rows && other in rows
                          && SameRequest(rows[prior].job, owner, key) && SameRequest(rows[other].job, owner, key)
      ensures other == prior
    {
      assert SameRequest(rows[other].job, rows[prior].job.owner, rows[prior].job.key);
    }
  }

  lemma InsertedStore(d: Documents, d': Documents, id: string, owner: string, family: string, key: string, e: Entry)
    requires Consistent(d) && id !in d.jobs
    requires forall prior | prior in d.jobs :: !SameRequest(d.jobs[prior], owner, key)
    requires d' == d.(jobs := d.jobs[id := NewJob(|d.jobs|, owner, family, key)],
                      events := d.events[id := [EventRow(0, InvestigationQueued)]])
    requires e == Entry(NewJob(|StoreOf(d).entries| + 1, owner, family, key), [EventRow(0, InvestigationQueued)], None, None)
    ensures StoreOf(d') == StoreOf(d).(entries := StoreOf(d).entries[id := e])
    ensures id !in StoreOf(d).entries && d'.events.Keys == d'.jobs.Keys
    ensures forall prior | prior in StoreOf(d).entries :: !SameRequest(StoreOf(d).entries[prior].job, e.job.owner, e.job.key)
  {
    hide StoreOf, Positioned, UniqueRequests, Hosted.TakesTurns;
    JobDocuments(d);
    CountDocuments(d);
    InsertedRow(d, d', id, e);
    SameDeliveriesSameTurns(d, d');
    forall prior | prior in StoreOf(d).entries ensures !SameRequest(StoreOf(d).entries[prior].job, owner, key) {
      assert !SameRequest(d.jobs[prior], owner, key);
    }
    assert d'.events.Keys == d'.jobs.Keys;
  }

  lemma InsertedDocuments(d: Documents, d': Documents, id: string, owner: string, family: string, key: string)
    requires Consistent(d) && id !in d.jobs
    requires forall prior | prior in d.jobs :: !SameRequest(d.jobs[prior], owner, key)
    requires d' == d.(jobs := d.jobs[id := NewJob(|d.jobs|, owner, family, key)],
                      events := d.events[id := [EventRow(0, InvestigationQueued)]])
    ensures Consistent(d')
    ensures var e := Entry(NewJob(|StoreOf(d).entries| + 1, owner, family, key), [EventRow(0, InvestigationQueued)], None, None);
            StoreOf(d') == StoreOf(d).(entries := StoreOf(d).entries[id := e])
  {
    var e := Entry(NewJob(|StoreOf(d).entries| + 1, owner, family, key), [EventRow(0, InvestigationQueued)], None, None);
    hide StoreOf, Positioned, UniqueRequests, SameRequest, Hosted.TakesTurns;
    InsertedStore(d, d', id, owner, family, key, e);
    NewRowIsIdentified(StoreOf(d).entries, id, e);
    NewcomerHasNoTurn(StoreOf(d), StoreOf(d'), id, e);
  }

  lemma CountDocuments(d: Documents)
    requires Consistent(d)
    ensures |StoreOf(d).entries| == |d.jobs|
  {
    JobDocuments(d);
    hide StoreOf, Consistent;
    assert |StoreOf(d).entries| == |StoreOf(d).entries.Keys| == |d.jobs.Keys| == |d.jobs|;
  }

  lemma NewcomerHasNoTurn(h: Hosted.Store, h': Hosted.Store, id: string, e: Entry)
    requires Hosted.TakesTurns(h) && id !in h.entries && e.delivery.None?
    requires h'.turns == h.turns && h'.entries == h.entries[id := e]
    ensures Hosted.TakesTurns(h')
  {
    assert id !in h.turns;
    forall other | other in h'.entries ensures other in h'.turns <==> h'.entries[other].delivery.Some? {
      if other != id { assert h'.entries[other] == h.entries[other]; }
    }
  }

  lemma InsertedRow(d: Documents, d': Documents, id: string, e: Entry)
    requires d.events.Keys == d.jobs.Keys && d.decisions.Keys <= d.jobs.Keys && d.deliveries.Keys <= d.jobs.Keys
    requires id !in d.jobs && id in d'.jobs && d'.jobs == d.jobs[id := d'.jobs[id]] && Ranked(d'.jobs[id]) == e.job
    requires d'.events == d.events[id := e.timeline] && e.mirror.None? && e.delivery.None?
    requires d'.decisions == d.decisions && d'.deliveries == d.deliveries
    ensures StoreOf(d').entries == StoreOf(d).entries[id := e]
  {
    assert RowOf(d', id) == e;
    forall other | other in d.jobs ensures other in d'.jobs && other in d'.events && RowOf(d', other) == RowOf(d, other) {
      SameRow(d, d', other);
    }
    hide RowOf, Ranked;
    assert d'.jobs.Keys == d.jobs.Keys + {id} && d'.events.Keys == d.events.Keys + {id};
    StoredRows(d);
    StoredRows(d');
    hide StoreOf;
    var after := StoreOf(d).entries[id := e];
    forall other | other in after.Keys ensures other in StoreOf(d').entries && StoreOf(d').entries[other] == after[other] {}
    assert StoreOf(d').entries.Keys == after.Keys;
  }

  lemma StoredRows(d: Documents)
    requires d.events.Keys == d.jobs.Keys
    ensures StoreOf(d).entries.Keys == d.jobs.Keys
    ensures forall id | id in d.jobs :: StoreOf(d).entries[id] == RowOf(d, id)
  {
    hide RowOf;
  }

  lemma SameRow(d: Documents, d': Documents, id: string)
    requires id in d.jobs && id in d.events && id in d'.jobs && id in d'.events
    requires d'.jobs[id] == d.jobs[id] && d'.events[id] == d.events[id] && d'.decisions == d.decisions && d'.deliveries == d.deliveries
    ensures RowOf(d', id) == RowOf(d, id)
  {
  }

  lemma FinalizedContents(d: Documents, d': Documents, id: string, c: Change)
    requires Consistent(d) && Set(d, d', id, c) && c.delivery.Some? && d'.deliveries[id].sequence == |d.deliveries|
    ensures StoreOf(d') == Hosted.Put(StoreOf(d), id, c).(turns := StoreOf(d).turns[id := |StoreOf(d).turns|])
  {
    SetJoins(d, d', id, c);
    DocumentOf(d, id);
    FinalizedTurns(d, d', id, c);
    hide Positioned, UniqueRequests, Hosted.CommitByCount, SameIdentity, RowOf, StoreOf, Hosted.TakesTurns, Set;
  }

  lemma FinalizedDocuments(d: Documents, d': Documents, id: string, c: Change)
    requires Consistent(d) && Set(d, d', id, c) && SameIdentity(Ranked(d.jobs[id]), c.job)
    requires id !in d.deliveries && c.delivery.Some? && d'.deliveries[id].sequence == |d.deliveries|
    ensures Consistent(d')
    ensures StoreOf(d') == Hosted.Put(StoreOf(d), id, c).(turns := StoreOf(d).turns[id := |StoreOf(d).turns|])
  {
    SetJoins(d, d', id, c);
    SetKeys(d, d', id, c);
    DocumentOf(d, id);
    TurnKeys(d);
    TurnKeys(d');
    FinalizedTurns(d, d', id, c);
    var e := Hosted.CommitByCount(StoreOf(d).entries[id], c);
    assert e.job == c.job && e.delivery == c.delivery;
    assert StoreOf(d).entries[id].job == Ranked(d.jobs[id]);
    hide Positioned, UniqueRequests, Hosted.CommitByCount, SameIdentity, RowOf, StoreOf, Hosted.TakesTurns, Set;
    NextTurnIsLast(StoreOf(d), StoreOf(d'), id, e);
    ReplacedKeepsIdentity(StoreOf(d).entries, id, e);
  }

  lemma FinalizedTurns(d: Documents, d': Documents, id: string, c: Change)
    requires Set(d, d', id, c) && c.delivery.Some? && d'.deliveries[id].sequence == |d.deliveries|
    ensures StoreOf(d').turns == StoreOf(d).turns[id := |StoreOf(d).turns|]
  {
    hide RowOf;
    TurnKeys(d);
    assert |StoreOf(d).turns| == |StoreOf(d).turns.Keys| == |d.deliveries.Keys| == |d.deliveries|;
  }

  lemma NextTurnIsLast(h: Hosted.Store, h': Hosted.Store, id: string, e: Entry)
    requires Hosted.TakesTurns(h) && id in h.entries && id !in h.turns && e.delivery.Some?
    requires h'.turns == h.turns[id := |h.turns|] && h'.entries == h.entries[id := e]
    ensures Hosted.TakesTurns(h')
  {
    forall other | other in h'.entries ensures other in h'.turns <==> h'.entries[other].delivery.Some? {
      if other != id { assert h'.entries[other] == h.entries[other]; }
    }
  }

  lemma RankedFields(before: Job, after: Job)
    ensures Ranked(before).status == before.status && Ranked(before).checkpoint == before.checkpoint
    ensures Ranked(before).owner == before.owner && Ranked(before).family == before.family && Ranked(before).incident == before.incident
    ensures forall token, expires ::
              after == before.(status := Running, token := token, expiresAt := expires) ==>
              Ranked(after) == Ranked(before).(status := Running, token := token, expiresAt := expires)
    ensures SameIdentity(before, after) ==> SameIdentity(Ranked(before), Ranked(after))
  {
  }

  lemma FirstIsAmong(d: Documents, candidates: set<string>, id: string)
    requires SortsFirst(d.jobs, candidates, id)
    ensures id in candidates
  {
  }

  lemma QueriesSeeJobs(d: Documents, now: Time)
    requires Consistent(d)
    ensures AnyRunning(StoreOf(d).entries) <==> exists id :: id in d.jobs && d.jobs[id].status == Running
    ensures Deferred(StoreOf(d).entries, now) <==>
              exists id :: id in d.jobs && Waiting(d.jobs[id]) && d.jobs[id].incident.Some? && d.jobs[id].availableAt > now
  {
    JobDocuments(d);
    hide StoreOf, Consistent;
    var rows := StoreOf(d).entries;
    forall id | id in rows
      ensures id in d.jobs && (rows[id].job.status == Running <==> d.jobs[id].status == Running)
      ensures Waiting(rows[id].job) <==> Waiting(d.jobs[id])
      ensures rows[id].job.incident == d.jobs[id].incident && rows[id].job.availableAt == d.jobs[id].availableAt
    {
    }
    hide Ranked, Waiting;
  }

  lemma UnexpiredIsKeptByCount(cfg: Config, e: Entry, now: Time)
    requires !Expired(e.job, now)
    ensures Hosted.CommitByCount(e, ReclaimChange(cfg, e, now)) == e
  {
  }

  lemma SameDeliveriesSameTurns(d: Documents, d': Documents)
    requires d'.deliveries == d.deliveries
    ensures StoreOf(d').turns == StoreOf(d).turns
  {
    hide RowOf;
  }
}

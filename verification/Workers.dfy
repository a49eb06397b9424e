/** One turn of a worker and of a delivery sender (`api_runtime.py`, `run_once`): how it ends, and that
    whatever happens to the work and to the lease meanwhile, the claim does not outlive it. */
module Workers {
  import opened Wrappers
  import opened Text
  import opened Decisions
  import opened ControlPlane
  import opened Promises
  import opened SqlitePlane

  /** How the runner came back; `error` is the name of an exception's class. */
  datatype Ending = Paused(checkpoint: string) | Finalized(artifact: string, snapshot: Option<string>) | Raised(error: string)

  /** What `run_once` comes back with. */
  datatype Ran = Idle | Served | Raising(error: string)

  function ErrorName<T>(r: Reply<T>): string {
    match r
    case Ok(_) => ""
    case NotFound => "ControlPlaneNotFoundError"
    case Conflict => "ControlPlaneConflictError"
    case Integrity => "ControlPlaneIntegrityError"
    case Invalid => "ValueError"
  }

  /** The end of `ReplayWorker.run_once`. `lost`: what the heartbeat raised when it could not renew the
      lease; it is looked at once the runner is back. */
  function EndTurn(cfg: Config, db: Db, id: string, token: string, f: Ending, lost: Option<string>, now: Time): (Db, Ran) {
    if f.Raised? then SetBackTo(cfg, db, id, token, now, f.error)
    else if lost.Some? then SetBackTo(cfg, db, id, token, now, lost.value)
    else
      var settled: Outcome<()> :=
        match f
        case Paused(checkpoint) => Pause(db, id, checkpoint, token, now)
        case Finalized(artifact, snapshot) => Finalize(db, id, artifact, token, now, snapshot)
        case Raised(_) => Conflict;
      if settled.Ok? then (After(db, settled), Served) else SetBackTo(cfg, db, id, token, now, ErrorName(settled))
  }

  function SetBackTo(cfg: Config, db: Db, id: string, token: string, now: Time, error: string): (Db, Ran) {
    (After(db, Retry(cfg, db, id, token, now, error)), Raising(error))
  }

  /** The end of `ReportDeliveryWorker.run_once`. `failed`: what the sender raised, or else the heartbeat. */
  function EndDelivery(cfg: Config, db: Db, id: string, token: string, failed: Option<string>, now: Time): (Db, Ran) {
    if failed.Some? then Redeliver(cfg, db, id, token, now, failed.value)
    else
      var delivered := MarkDelivered(db, id, token, now);
      if delivered.Ok? then (After(db, delivered), Served) else Redeliver(cfg, db, id, token, now, ErrorName(delivered))
  }

  function Redeliver(cfg: Config, db: Db, id: string, token: string, now: Time, error: string): (Db, Ran) {
    (After(db, RetryDelivery(cfg, db, id, token, now, error)), Raising(error))
  }

  // ---------------------------------------------------------------- how a turn ends

  lemma ReportNamesAreNotBlank(id: string)
    ensures !IsBlank(id + "/report.md")
  {
    BlankExactlyWhen(id + "/report.md");
    assert (id + "/report.md")[|id|] == '/' && '/' in id + "/report.md" && !IsSpace('/');
  }

  /** The claim is still good, the heartbeat never failed, and the runner came back with something to
      keep: a checkpoint, or a readable report in the investigation's own place. */
  predicate GoesWell(e: Entry, id: string, token: string, f: Ending, lost: Option<string>, now: Time) {
    && lost.None? && e.job.status == Running && e.job.token == Some(token)
    && e.job.expiresAt.Some? && now < e.job.expiresAt.value
    && match f
       case Paused(checkpoint) => !AllSpace(checkpoint)
       case Finalized(artifact, snapshot) => artifact == id + "/report.md" && snapshot.Some? && e.delivery.None?
       case Raised(_) => false
  }

  /** A finished report: stored, hashed, and on its way to the owner. */
  predicate Delivers(e: Entry, e': Entry, artifact: string, text: string) {
    && e'.job == e.job.(status := Completed, token := None, expiresAt := None, artifact := Some(artifact), content := Some(text),
                        digest := Some(Sha256(text)))
    && e'.delivery == Some(Delivery(e.job.owner, Pending, None, None, 0, 0.0, None))
    && e'.mirror == e.mirror && |e'.timeline| == |e.timeline| + 1 && e'.timeline[|e.timeline|].event == ReportFinalized
  }

  predicate Pauses(e: Entry, e': Entry, checkpoint: string) {
    && e'.job == e.job.(status := PausedApproval, token := None, expiresAt := None, checkpoint := Some(checkpoint))
    && e'.delivery == e.delivery && e'.mirror == e.mirror
    && |e'.timeline| == |e.timeline| + 1 && e'.timeline[|e.timeline|].event == DecisionRequested(checkpoint)
  }

  lemma PausingDoes(db: Db, id: string, token: string, checkpoint: string, now: Time)
    requires id in db.entries
    ensures var e, r := db.entries[id], Pause(db, id, checkpoint, token, now);
            && (r.Ok? <==> Current(e.job, token, now) && !AllSpace(checkpoint))
            && (!r.Ok? ==> r == if AllSpace(checkpoint) then Invalid else Conflict)
            && (r.Ok? ==> id in r.value.0.entries && r.value.0 == db.(entries := db.entries[id := r.value.0.entries[id]])
                          && Pauses(e, r.value.0.entries[id], checkpoint))
  {
    BlankExactlyWhen(checkpoint);
    hide IsBlank, AllSpace, NextOrdinal;
  }

  lemma FinalizingDoes(db: Db, id: string, token: string, artifact: string, snapshot: Option<string>, now: Time)
    requires id in db.entries
    ensures var e, r := db.entries[id], Finalize(db, id, artifact, token, now, snapshot);
            && (r.Ok? <==> Current(e.job, token, now) && artifact == id + "/report.md" && snapshot.Some? && e.delivery.None?)
            && (!r.Ok? && !AllSpace(artifact) ==>
                  r == if !Current(e.job, token, now) then Conflict
                       else if artifact != id + "/report.md" || snapshot.None? then Invalid
                       else Integrity)
            && (AllSpace(artifact) ==> r == Invalid)
            && (r.Ok? ==> id in r.value.0.entries && r.value.0 == db.(entries := db.entries[id := r.value.0.entries[id]])
                          && Delivers(e, r.value.0.entries[id], artifact, snapshot.value))
  {
    ReportNamesAreNotBlank(id);
    BlankExactlyWhen(artifact);
    hide IsBlank, AllSpace, NextOrdinal;
  }

  /** A turn serves exactly when it goes well: then a paused job waits with its checkpoint and a finished
      one is completed with its text stored and one delivery to its owner, due at once, with no attempt
      counted. Otherwise it raises, and a claim still held is one more counted attempt. */
  lemma TurnsEndByTheirOutcome(cfg: Config, db: Db, id: string, token: string, f: Ending, lost: Option<string>, now: Time)
    requires id in db.entries
    ensures var (after, ran) := EndTurn(cfg, db, id, token, f, lost, now);
            var e := db.entries[id];
            && id in after.entries && after == db.(entries := db.entries[id := after.entries[id]])
            && var e' := after.entries[id];
               && (ran == Served <==> GoesWell(e, id, token, f, lost, now))
               && (ran == Served && f.Finalized? ==> Delivers(e, e', f.artifact, f.snapshot.value))
               && (ran == Served && f.Paused? ==> Pauses(e, e', f.checkpoint))
               && (ran != Served ==> ran.Raising?)
               && (ran != Served && Holds(e.job, token) ==> SetBack(cfg, e, e', now, ran.error))
               && (ran != Served && !Holds(e.job, token) ==> after == db)
  {
    hide IsBlank, AllSpace, SetBack, Retry, Pause, Finalize, Delivers, Pauses;
    assert db.entries[id := db.entries[id]] == db.entries;
    if f.Paused? { PausingDoes(db, id, token, f.checkpoint, now); }
    if f.Finalized? { FinalizingDoes(db, id, token, f.artifact, f.snapshot, now); }
    if EndTurn(cfg, db, id, token, f, lost, now).1.Raising? {
      RetrySetsBack(cfg, db, id, token, now, EndTurn(cfg, db, id, token, f, lost, now).1.error);
    }
  }

  /** The error that is raised and, at the last attempt, stored: the runner's own, else the heartbeat's,
      else the control plane's refusal. */
  lemma TurnsRaiseTheFirstError(cfg: Config, db: Db, id: string, token: string, f: Ending, lost: Option<string>, now: Time)
    ensures var ran := EndTurn(cfg, db, id, token, f, lost, now).1;
            && (f.Raised? ==> ran == Raising(f.error))
            && (!f.Raised? && lost.Some? ==> ran == Raising(lost.value))
            && (!f.Raised? && lost.None? && id in db.entries && !Current(db.entries[id].job, token, now)
                && (f.Paused? ==> !IsBlank(f.checkpoint)) && (f.Finalized? ==> !IsBlank(f.artifact)) ==>
                  ran == Raising("ControlPlaneConflictError"))
  {
    hide IsBlank, RetryDelay, Append;
  }

  /** Whoever else did what to the rows while the work ran: when the turn is over, nobody holds the
      claim it was started with, even if its lease had run out unnoticed. */
  lemma TurnsGiveTheirClaimBack(cfg: Config, db: Db, id: string, token: string, f: Ending, lost: Option<string>, now: Time)
    requires id in db.entries
    ensures var after := EndTurn(cfg, db, id, token, f, lost, now).0;
            && id in after.entries && !Holds(after.entries[id].job, token)
            && (!Holds(db.entries[id].job, token) ==> after == db)
            && forall other | other in db.entries && other != id :: other in after.entries && after.entries[other] == db.entries[other]
  {
    hide IsBlank, Append, RetryDelay, OwnReport;
  }

  /** A delivery turn serves exactly when nothing was raised and its claim is still good: then the report
      is sent. Otherwise it raises, and a claim still held is one more counted attempt. */
  lemma DeliveriesEndByTheirOutcome(cfg: Config, db: Db, id: string, token: string, failed: Option<string>, now: Time)
    requires id in db.entries && db.entries[id].delivery.Some?
    ensures var (after, ran) := EndDelivery(cfg, db, id, token, failed, now);
            var e, d := db.entries[id], db.entries[id].delivery.value;
            && id in after.entries && after == db.(entries := db.entries[id := after.entries[id]])
            && var e' := after.entries[id];
               && (ran == Served <==>
                     failed.None? && d.status == Sending && d.token == Some(token) && d.expiresAt.Some? && now < d.expiresAt.value)
               && (ran == Served ==>
                     && e'.job == e.job && e'.delivery == Some(d.(status := Sent, token := None, expiresAt := None))
                     && |e'.timeline| == |e.timeline| + 1 && e'.timeline[|e.timeline|].event == ReportDelivered)
               && (ran != Served ==> ran == Raising(if failed.Some? then failed.value else "ControlPlaneConflictError"))
               && (ran != Served && Carries(d, token) ==> e'.delivery.Some? && DeliverySetBack(cfg, e, e', now, ran.error))
               && (ran != Served && !Carries(d, token) ==> after == db)
  {
    assert db.entries[id := db.entries[id]] == db.entries;
    hide NextOrdinal, RetryDelay;
  }

  lemma DeliveriesGiveTheirClaimBack(cfg: Config, db: Db, id: string, token: string, failed: Option<string>, now: Time)
    requires id in db.entries && db.entries[id].delivery.Some?
    ensures var after := EndDelivery(cfg, db, id, token, failed, now).0;
            && id in after.entries && after.entries[id].delivery.Some?
            && !Carries(after.entries[id].delivery.value, token)
            && (!Carries(db.entries[id].delivery.value, token) ==> after == db)
  {
    hide Append, RetryDelay;
  }

  // ---------------------------------------------------------------- on the class

  /** What happens once the runner is back. */
  method FinishTurn(plane: SqliteReplayControlPlane, id: string, token: string, f: Ending, lost: Option<string>, later: Time)
    returns (ran: Ran)
    requires plane.Valid()
    modifies plane, plane.ledger
    ensures plane.Valid()
    ensures (plane.Contents(), ran) == EndTurn(plane.cfg, old(plane.Contents()), id, token, f, lost, later)
  {
    hide Pause, Finalize, Retry, Consistent, Joined;
    var error := "";
    if f.Raised? {
      error := f.error;
    } else if lost.Some? {
      error := lost.value;
    } else {
      var settled: Reply<()> := Conflict;
      match f {
        case Paused(checkpoint) => settled := plane.MarkPaused(id, checkpoint, token, later);
        case Finalized(artifact, snapshot) => settled := plane.FinalizeReport(id, artifact, token, later, snapshot);
        case Raised(_) =>
      }
      if settled.Ok? {
        return Served;
      }
      error := ErrorName(settled);
    }
    var retryable := plane.RetryRunning(id, token, later, error);
    return Raising(error);
  }

  /** `ReplayWorker.run_once` against the SQLite control plane, nobody interfering. */
  method RunOnce(plane: SqliteReplayControlPlane, now: Time, token: string, f: Ending, lost: Option<string>, later: Time)
    returns (ran: Ran)
    requires plane.Valid()
    modifies plane, plane.ledger
    ensures plane.Valid()
    ensures var claimed := ClaimNext(plane.cfg, old(plane.Contents()), now, token);
            var ready := After(old(plane.Contents()), claimed);
            if !claimed.Ok? then ran == Raising(ErrorName(claimed)) && plane.Contents() == ready
            else if claimed.value.1.None? then ran == Idle && plane.Contents() == ready
            else (plane.Contents(), ran) == EndTurn(plane.cfg, ready, claimed.value.1.value.id, token, f, lost, later)
  {
    hide ClaimNext, Pause, Finalize, Retry, Consistent, Joined, EndTurn;
    var claim := plane.ClaimNext(now, token);
    match claim {
      case Ok(c) =>
        if c.None? {
          return Idle;
        }
        ran := FinishTurn(plane, c.value.id, token, f, lost, later);
      case NotFound => return Raising(ErrorName(claim));
      case Conflict => return Raising(ErrorName(claim));
      case Integrity => return Raising(ErrorName(claim));
      case Invalid => return Raising(ErrorName(claim));
    }
  }

  /** `ReportDeliveryWorker.run_once`, nobody interfering. */
  method DeliverOnce(plane: SqliteReplayControlPlane, now: Time, token: string, failed: Option<string>, later: Time) returns (ran: Ran)
    requires plane.Valid()
    modifies plane
    ensures plane.Valid()
    ensures var claimed := ClaimDelivery(plane.cfg, old(plane.Contents()), now, token);
            var ready := After(old(plane.Contents()), claimed);
            if claimed.Ok? && claimed.value.1.Some? then
              (plane.Contents(), ran) == EndDelivery(plane.cfg, ready, claimed.value.1.value.id, token, failed, later)
            else plane.Contents() == ready && (ran == Idle || ran.Raising?)
  {
    hide ClaimDelivery, MarkDelivered, RetryDelivery, Consistent, Joined;
    var claim := plane.ClaimDelivery(now, token);
    if !claim.Ok? {
      return Raising(ErrorName(claim));
    }
    if claim.value.None? {
      return Idle;
    }
    var error := "";
    if failed.Some? {
      error := failed.value;
    } else {
      var delivered := plane.MarkDelivered(claim.value.value.id, token, later);
      if delivered.Ok? {
        return Served;
      }
      error := ErrorName(delivered);
    }
    var retryable := plane.RetryDelivery(claim.value.value.id, token, later, error);
    return Raising(error);
  }
}

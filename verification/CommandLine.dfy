/** `causalops approve` and `causalops reject` (`cli.py`, `run_decision_command`): record, resume,
    finalize, with a process that may die between any two of them and be run again. */
module CommandLine {
  import opened Wrappers
  import opened Decisions
  import opened ControlPlane

  datatype Thread = Unpaused | Pending(checkpoint: string) | Settled(decision: OwnerDecision)

  /** `staged` and `published` hold the decision their report carries. */
  datatype Stores = Stores(row: Option<DecisionRow>, thread: Thread, staged: Option<OwnerDecision>, published: Option<OwnerDecision>)

  datatype CrashAt = Nowhere | AfterRecording | AfterResuming | AfterStaging

  datatype Exit =
    | ConflictingDecision
    | NoPendingInterrupt
    | AlreadyFinalized
    | Published(decision: OwnerDecision)
    | Died

  /** `raced`: what another process records between this one's lookup and its own insert. */
  function Command(s: Stores, d: OwnerDecision, raced: Option<OwnerDecision>, crash: CrashAt): (Stores, Exit) {
    if s.row.Some? && s.row.value.decision != d then (s, ConflictingDecision)
    else if s.row.Some? && s.published.Some? then (s, Published(s.published.value))
    else if s.row.None? && !s.thread.Pending? then (s, NoPendingInterrupt)
    else if s.row.None? && raced.Some? then
      (s.(row := Some(DecisionRow(s.thread.checkpoint, raced.value))), ConflictingDecision)
    else
      var told := if s.row.None? then s.(row := Some(DecisionRow(s.thread.checkpoint, d))) else s;
      if s.row.None? && crash == AfterRecording then (told, Died) else ResumeAndFinalize(told, d, crash)
  }

  /** Resuming a settled thread changes nothing. */
  function ResumeAndFinalize(s: Stores, d: OwnerDecision, crash: CrashAt): (Stores, Exit) {
    var settled := if s.thread.Settled? then s.thread.decision else d;
    var resumed := s.(thread := Settled(settled));
    if crash == AfterResuming then (resumed, Died)
    else if s.published.Some? then (resumed, AlreadyFinalized)
    else
      var staged := resumed.(staged := Some(settled));
      if crash == AfterStaging then (staged, Died)
      else (staged.(staged := None, published := Some(settled)), Published(settled))
  }

  datatype Act =
    | Commanding(decision: OwnerDecision, raced: Option<OwnerDecision>, crash: CrashAt)
    | ApiRecords(decision: OwnerDecision)     // the control plane writes the same ledger
    | WorkerResumes                           // a worker resumes with the ledger's decision
    | WorkerFinalizes                         // and finalizes

  function Step(s: Stores, act: Act): Stores {
    match act
    case Commanding(d, raced, crash) => Command(s, d, raced, crash).0
    case ApiRecords(d) => if s.row.None? && s.thread.Pending? then s.(row := Some(DecisionRow(s.thread.checkpoint, d))) else s
    case WorkerResumes => if s.row.Some? && s.thread.Pending? then s.(thread := Settled(s.row.value.decision)) else s
    case WorkerFinalizes => if s.thread.Settled? && s.published.None? then s.(published := Some(s.thread.decision)) else s
  }

  function Run(s: Stores, acts: seq<Act>): Stores
    decreases |acts|
  {
    if acts == [] then s else Run(Step(s, acts[0]), acts[1..])
  }

  /** The decision is in the ledger before the graph has it, and in the graph before a report has it. */
  predicate RecordedFirst(s: Stores) {
    && (s.row.Some? ==> !s.thread.Unpaused?)
    && (s.thread.Settled? ==> s.row.Some? && s.row.value.decision == s.thread.decision)
    && (s.published.Some? ==> s.thread == Settled(s.published.value))
    && (s.staged.Some? ==> s.thread == Settled(s.staged.value))
  }

  predicate NeverRevised(s: Stores, s': Stores) {
    && (s.row.Some? ==> s'.row == s.row)
    && (s.thread.Settled? ==> s'.thread == s.thread)
    && (s.published.Some? ==> s'.published == s.published)
  }

  /** Whoever decides, resumes, crashes and retries, in whatever order: the first decision recorded is
      the only one the graph ever gets and the only one a report ever carries. */
  lemma {:induction false} FirstRecordedDecisionIsTheOnlyOne(s: Stores, acts: seq<Act>)
    requires RecordedFirst(s)
    ensures var s' := Run(s, acts);
            && RecordedFirst(s') && NeverRevised(s, s')
            && (s'.published.Some? ==> s'.row.Some? && s'.published.value == s'.row.value.decision)
    decreases |acts|
  {
    if acts != [] {
      FirstRecordedDecisionIsTheOnlyOne(Step(s, acts[0]), acts[1..]);
    }
  }

  /** After any number of crashes, running the command again with the recorded decision finishes the
      job; with any other it is refused and changes nothing. */
  lemma RetryFinishes(s: Stores, acts: seq<Act>, d: OwnerDecision, raced: Option<OwnerDecision>)
    requires RecordedFirst(s) && Run(s, acts).row.Some?
    ensures var s' := Run(s, acts);
            var (after, exit) := Command(s', d, raced, Nowhere);
            if d == s'.row.value.decision then
              exit == Published(d) && after.published == Some(d) && after.thread == Settled(d) && after.row == s'.row
            else exit == ConflictingDecision && after == s'
  {
    FirstRecordedDecisionIsTheOnlyOne(s, acts);
  }

  /** The first command on a paused thread records its decision before anything else, hands it to the
      graph and publishes it; a crash leaves exactly what was done before it. If another process
      records first, or the thread is not paused, nothing of this command's is kept. */
  lemma FirstCommandDoes(s: Stores, d: OwnerDecision, raced: Option<OwnerDecision>, crash: CrashAt)
    requires RecordedFirst(s) && s.row.None?
    ensures var (after, exit) := Command(s, d, raced, crash);
            if !s.thread.Pending? then after == s && exit == NoPendingInterrupt
            else
              var row := Some(DecisionRow(s.thread.checkpoint, if raced.Some? then raced.value else d));
              && after.row == row
              && after.thread == (if raced.Some? || crash == AfterRecording then s.thread else Settled(d))
              && after.staged == (if raced.None? && crash == AfterStaging then Some(d) else None)
              && after.published == (if raced.None? && crash == Nowhere then Some(d) else None)
              && exit == if raced.Some? then ConflictingDecision else if crash == Nowhere then Published(d) else Died
  {
  }

  // ---------------------------------------------------------------- several commands at once

  /** How far a running command has got, and what it remembers. */
  datatype Live =
    | Starting(decision: OwnerDecision)
    | Looked(decision: OwnerDecision, found: bool)
    | Inserting(decision: OwnerDecision, checkpoint: string)
    | Resuming(decision: OwnerDecision)
    | Staging(carried: OwnerDecision)
    | Moving(carried: OwnerDecision)
    | Gone(exit: Exit)

  /** One durable read or write of a running command. The staging directory is shared; moving it fails
      once it is gone or its target is there. */
  function Advance(s: Stores, live: Live): (Stores, Live) {
    match live
    case Starting(d) =>
      if s.row.Some? && s.row.value.decision != d then (s, Gone(ConflictingDecision)) else (s, Looked(d, s.row.Some?))
    case Looked(d, found) =>
      if found && s.published.Some? then (s, Gone(Published(s.published.value)))
      else if found then (s, Resuming(d))
      else if s.thread.Pending? then (s, Inserting(d, s.thread.checkpoint))
      else (s, Gone(NoPendingInterrupt))
    case Inserting(d, checkpoint) =>
      if s.row.Some? then (s, Gone(ConflictingDecision)) else (s.(row := Some(DecisionRow(checkpoint, d))), Resuming(d))
    case Resuming(d) =>
      var settled := if s.thread.Settled? then s.thread.decision else d;
      (s.(thread := Settled(settled)), Staging(settled))
    case Staging(carried) =>
      if s.published.Some? then (s, Gone(AlreadyFinalized)) else (s.(staged := Some(carried)), Moving(carried))
    case Moving(carried) =>
      if s.published.Some? || s.staged.None? then (s, Gone(Died))
      else (s.(staged := None, published := s.staged), Gone(Published(carried)))
    case Gone(_) => (s, live)
  }

  datatype System = System(stores: Stores, commands: seq<Live>)

  datatype Event =
    | Starts(decision: OwnerDecision)     // the owner runs the command
    | Advances(i: nat)                    // one of the running commands takes its next step
    | Dies(i: nat)                        // or its process dies
    | Elsewhere(act: Act)                 // the API, a worker, or a whole command elsewhere

  function Happen(w: System, e: Event): System {
    match e
    case Starts(d) => w.(commands := w.commands + [Starting(d)])
    case Advances(i) =>
      if i >= |w.commands| then w
      else
        var (stores, live) := Advance(w.stores, w.commands[i]);
        System(stores, w.commands[i := live])
    case Dies(i) => if i >= |w.commands| || w.commands[i].Gone? then w else w.(commands := w.commands[i := Gone(Died)])
    case Elsewhere(act) => w.(stores := Step(w.stores, act))
  }

  function Unfold(w: System, events: seq<Event>): System
    decreases |events|
  {
    if events == [] then w else Unfold(Happen(w, events[0]), events[1..])
  }

  /** What a running command remembers is still true. */
  predicate Remembers(s: Stores, live: Live) {
    match live
    case Looked(d, true) => s.row.Some? && s.row.value.decision == d
    case Inserting(_, _) => !s.thread.Unpaused?
    case Resuming(d) => s.row.Some? && s.row.value.decision == d
    case Staging(carried) => s.thread == Settled(carried)
    case Moving(carried) => s.thread == Settled(carried)
    case Gone(Published(d)) => s.published == Some(d)
    case _ => true
  }

  ghost predicate Sane(w: System) {
    RecordedFirst(w.stores) && forall i | 0 <= i < |w.commands| :: Remembers(w.stores, w.commands[i])
  }

  lemma MemoryStaysTrue(s: Stores, s': Stores, live: Live)
    requires Remembers(s, live) && NeverRevised(s, s') && (!s.thread.Unpaused? ==> !s'.thread.Unpaused?)
    ensures Remembers(s', live)
  {
  }

  lemma AdvanceStaysSane(s: Stores, live: Live)
    requires RecordedFirst(s) && Remembers(s, live)
    ensures var (s', live') := Advance(s, live);
            RecordedFirst(s') && NeverRevised(s, s') && Remembers(s', live') && (!s.thread.Unpaused? ==> !s'.thread.Unpaused?)
  {
  }

  lemma ActsElsewhere(s: Stores, act: Act)
    requires RecordedFirst(s)
    ensures var s' := Step(s, act); RecordedFirst(s') && NeverRevised(s, s') && (!s.thread.Unpaused? ==> !s'.thread.Unpaused?)
  {
  }

  lemma HappenStaysSane(w: System, e: Event)
    requires Sane(w)
    ensures Sane(Happen(w, e)) && NeverRevised(w.stores, Happen(w, e).stores)
  {
    var w' := Happen(w, e);
    match e {
      case Starts(d) =>
      case Advances(i) =>
        if i < |w.commands| {
          AdvanceStaysSane(w.stores, w.commands[i]);
          forall j | 0 <= j < |w'.commands| ensures Remembers(w'.stores, w'.commands[j]) {
            if j != i { MemoryStaysTrue(w.stores, w'.stores, w.commands[j]); }
          }
        }
      case Dies(i) =>
      case Elsewhere(act) =>
        ActsElsewhere(w.stores, act);
        forall j | 0 <= j < |w'.commands| ensures Remembers(w'.stores, w'.commands[j]) {
          MemoryStaysTrue(w.stores, w'.stores, w.commands[j]);
        }
    }
  }

  lemma {:induction false} UnfoldStaysSane(w: System, events: seq<Event>)
    requires Sane(w)
    ensures Sane(Unfold(w, events)) && NeverRevised(w.stores, Unfold(w, events).stores)
    decreases |events|
  {
    if events != [] {
      HappenStaysSane(w, events[0]);
      hide Happen, Sane;
      UnfoldStaysSane(Happen(w, events[0]), events[1..]);
    }
  }

  /** Any number of commands running at once, each one durable step at a time, dying anywhere, amid the
      API and workers: the first decision recorded is never revised, is the only one the graph gets and
      a report carries, and what a command says it published is that decision. */
  lemma FirstDecisionWinsAmongLiveCommands(w: System, events: seq<Event>, i: nat)
    requires Sane(w)
    ensures var w' := Unfold(w, events);
            var s := w'.stores;
            && Sane(w') && NeverRevised(w.stores, s)
            && (s.thread.Settled? ==> s.row.Some? && s.row.value.decision == s.thread.decision)
            && (s.published.Some? ==> s.row.Some? && s.published.value == s.row.value.decision)
            && (i < |w'.commands| && w'.commands[i].Gone? && w'.commands[i].exit.Published? ==>
                  s.row.Some? && w'.commands[i].exit.decision == s.row.value.decision)
  {
    UnfoldStaysSane(w, events);
    hide Unfold;
  }

  /** A command nobody disturbs. */
  function Alone(s: Stores, live: Live, steps: nat): (Stores, Live)
    decreases steps
  {
    if steps == 0 then (s, live)
    else
      var (s', live') := Advance(s, live);
      Alone(s', live', steps - 1)
  }

  /** Undisturbed, its steps add up to the command. */
  lemma AloneIsTheCommand(s: Stores, d: OwnerDecision)
    requires RecordedFirst(s)
    ensures var (after, exit) := Command(s, d, None, Nowhere); Alone(s, Starting(d), 6) == (after, Gone(exit))
  {
    var (s1, l1) := Advance(s, Starting(d));
    var (s2, l2) := Advance(s1, l1);
    var (s3, l3) := Advance(s2, l2);
    var (s4, l4) := Advance(s3, l3);
    var (s5, l5) := Advance(s4, l4);
    var (s6, l6) := Advance(s5, l5);
    assert Alone(s5, l5, 1) == (s6, l6) && Alone(s4, l4, 2) == (s6, l6);
    assert Alone(s2, l2, 4) == (s6, l6) && Alone(s, Starting(d), 6) == (s6, l6);
  }

  /** The row is the control plane's own: inserting it here is `CliRecord` there, and what the API
      records is what deciding a paused job writes. */
  lemma RowIsTheLedgers(db: Db, id: string, owner: string, s: Stores, d: OwnerDecision)
    requires s.thread.Pending? && s.row == Lookup(db.ledger, id)
    ensures var record := CliRecord(db, id, DecisionRow(s.thread.checkpoint, d));
            && Advance(s, Inserting(d, s.thread.checkpoint)).0.row == Lookup(After(db, record).ledger, id)
            && (Advance(s, Inserting(d, s.thread.checkpoint)).1 == Gone(ConflictingDecision) <==> record == Conflict)
    ensures id in db.entries && db.entries[id].job.owner == owner && db.entries[id].job.status == PausedApproval
            && db.entries[id].mirror.None? && db.entries[id].job.checkpoint == Some(s.thread.checkpoint) && s.thread.checkpoint != "" ==>
              Step(s, ApiRecords(d)).row == Lookup(After(db, ControlPlane.Decide(db, owner, id, d)).ledger, id)
  {
  }

  /** The stores as the command meets them. */
  class DecisionStores {
    var row: Option<DecisionRow>
    var thread: Thread
    var staged: Option<OwnerDecision>
    var published: Option<OwnerDecision>

    function Now(): Stores
      reads this
    {
      Stores(row, thread, staged, published)
    }

    constructor (s: Stores)
      ensures Now() == s
    {
      row, thread, staged, published := s.row, s.thread, s.staged, s.published;
    }

    /** `record_decision_before_resume` */
    method Record(checkpoint: string, d: OwnerDecision, raced: Option<OwnerDecision>) returns (ok: bool)
      requires row.None?
      modifies `row
      ensures row == Some(DecisionRow(checkpoint, if raced.Some? then raced.value else d))
      ensures ok <==> raced.None?
    {
      if raced.Some? {
        row := Some(DecisionRow(checkpoint, raced.value));
        return false;
      }
      row := Some(DecisionRow(checkpoint, d));
      return true;
    }

    /** `run_decision_command` */
    method RunDecisionCommand(d: OwnerDecision, raced: Option<OwnerDecision>, crash: CrashAt) returns (exit: Exit)
      modifies this
      ensures (Now(), exit) == Command(old(Now()), d, raced, crash)
    {
      var existing := row;
      if existing.Some? && existing.value.decision != d {
        return ConflictingDecision;
      }
      if existing.Some? && published.Some? {
        return Published(published.value);
      }
      if existing.None? {
        if !thread.Pending? {
          return NoPendingInterrupt;
        }
        var recorded := Record(thread.checkpoint, d, raced);
        if !recorded {
          return ConflictingDecision;
        }
        if crash == AfterRecording {
          return Died;
        }
      }
      if !thread.Settled? {
        thread := Settled(d);
      }
      if crash == AfterResuming {
        return Died;
      }
      if published.Some? {
        return AlreadyFinalized;
      }
      staged := Some(thread.decision);
      if crash == AfterStaging {
        return Died;
      }
      published := staged;
      staged := None;
      return Published(thread.decision);
    }
  }
}

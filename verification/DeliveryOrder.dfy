/** A run after which the two control planes deliver in different orders: one investigation waits for
    its owner while a later one is finished. */
module DeliveryOrder {
  import opened Wrappers
  import opened Text
  import opened Decisions
  import opened ControlPlane
  import opened PlaneRuns
  import opened PlaneSteps
  import Hosted

  const CFG: Config := Config(60.0, 1.0, 3, 3)
  const EMPTY_STORE: Hosted.Store := Hosted.Store(map[], map[])

  const ACCEPT: OwnerDecision := OwnerDecision(Accept, None)

  function ReportOf(id: string): string {
    id + "/report.md"
  }

  function PauseA(): Op {
    OpPause("a", "c", "t1", 0.0)
  }

  function Finalizing(id: string, token: string, content: string): Op {
    OpFinalize(id, ReportOf(id), token, 0.0, Some(content))
  }

  function Scenario(): seq<Op> {
    [OpCreate("owner", "family", "1", "a"),
     OpCreate("owner", "family", "2", "b"),
     OpClaimNext(0.0, "t1"),
     PauseA(),
     OpClaimNext(0.0, "t2"),
     Finalizing("b", "t2", "later"),
     OpDecide("owner", "a", ACCEPT),
     OpClaimNext(0.0, "t3"),
     Finalizing("a", "t3", "earlier")]
  }

  /** A claim when nothing is expired, running or deferred. */
  lemma ClaimStarts(h: Hosted.Store, token: string, id: string)
    requires Positioned(h.entries) && IsFirst(h.entries, 0.0, id)
    requires forall other | other in h.entries :: h.entries[other].job.status != Running
    requires forall other | other in h.entries :: h.entries[other].job.availableAt <= 0.0
    ensures Hosted.ClaimNext(CFG, h, 0.0, token) == Hosted.Start(CFG, h, id, 0.0, token)
  {
    forall other | other in h.entries
      ensures Hosted.CommitByCount(h.entries[other], ReclaimChange(CFG, h.entries[other], 0.0)) == h.entries[other]
    {
    }
    assert Hosted.ReclaimByCount(CFG, h.entries, 0.0) == h.entries;
    assert !AnyRunning(h.entries) && !Deferred(h.entries, 0.0);
    FirstIsUnique(h.entries, 0.0, id);
    assert h.(entries := h.entries) == h;
    hide Hosted.Start, Hosted.ReclaimByCount, IsFirst, Positioned;
  }

  function Pair(a: Entry, b: Entry, turns: map<string, nat>): Hosted.Store {
    Hosted.Store(map["a" := a, "b" := b], turns)
  }

  lemma PairIsPositioned(a: Entry, b: Entry, turns: map<string, nat>)
    requires a.job.position == 1 && b.job.position == 2
    ensures Positioned(Pair(a, b, turns).entries)
  {
    assert Pair(a, b, turns).entries.Keys == {"a", "b"};
  }

  lemma PairRows(a: Entry, b: Entry, turns: map<string, nat>)
    ensures var h := Pair(a, b, turns);
            h.entries.Keys == {"a", "b"} && h.entries["a"] == a && h.entries["b"] == b && h.turns == turns
  {
  }

  lemma PutFirst(a: Entry, b: Entry, turns: map<string, nat>, c: Change)
    ensures Hosted.Put(Pair(a, b, turns), "a", c) == Pair(Hosted.CommitByCount(a, c), b, turns)
    ensures Hosted.Put(Pair(a, b, turns), "b", c) == Pair(a, Hosted.CommitByCount(b, c), turns)
  {
    hide Hosted.CommitByCount;
    assert Hosted.Put(Pair(a, b, turns), "a", c).entries == map["a" := Hosted.CommitByCount(a, c), "b" := b];
    assert Hosted.Put(Pair(a, b, turns), "b", c).entries == map["a" := a, "b" := Hosted.CommitByCount(b, c)];
  }

  function Started(job: Job, token: string): Job {
    job.(status := Running, token := Some(token), expiresAt := Some(60.0))
  }

  function Done(job: Job, id: string, content: string): Job {
    job.(status := Completed, token := None, expiresAt := None, artifact := Some(ReportOf(id)), content := Some(content),
         digest := Some(Sha256(content)))
  }

  /** Only these parts of a row matter to the rest of the scenario. */
  predicate Is(e: Entry, job: Job, mirror: Option<DecisionRow>, delivery: Option<Delivery>) {
    e.job == job && e.mirror == mirror && e.delivery == delivery
  }

  const JOB_A: Job := NewJob(1, "owner", "family", "1")
  const JOB_B: Job := NewJob(2, "owner", "family", "2")
  const ROW: DecisionRow := DecisionRow("c", ACCEPT)

  /** Job a once its owner has accepted, and job b once it is done. */
  const DECIDED_A: Job := JOB_A.(checkpoint := Some("c"))
  const DONE_B: Job := Done(JOB_B, "b", "later")

  lemma Creating() returns (a: Entry, b: Entry)
    ensures Is(a, JOB_A, None, None) && Is(b, JOB_B, None, None)
    ensures Next(Next(EMPTY_STORE, 0), 1) == Pair(a, b, map[])
  {
    var rows := [EventRow(0, InvestigationQueued)];
    a, b := Entry(JOB_A, rows, None, None), Entry(JOB_B, rows, None, None);
    var h1 := Hosted.Does(CFG, EMPTY_STORE, Scenario()[0]).0;
    assert |EMPTY_STORE.entries| == 0;
    assert h1 == Hosted.Store(map["a" := a], map[]);
    assert h1.entries.Keys == {"a"} && |h1.entries| == |h1.entries.Keys| == 1;
    assert !SameRequest(a.job, "owner", "2");
    assert Hosted.Does(CFG, h1, Scenario()[1]).0 == Hosted.Store(map["a" := a]["b" := b], map[]);
    assert map["a" := a]["b" := b] == map["a" := a, "b" := b];
  }

  lemma Claiming(a: Entry, b: Entry, turns: map<string, nat>, token: string, first: bool) returns (after: Entry)
    requires a.job.position == 1 && b.job.position == 2 && a.job.availableAt == 0.0 && b.job.availableAt == 0.0
    requires a.job.status != Running && b.job.status != Running && a.job.incident.None? && b.job.incident.None?
    requires if first then Waiting(a.job) else Waiting(b.job) && !Waiting(a.job)
    ensures var (h, e) := (Hosted.ClaimNext(CFG, Pair(a, b, turns), 0.0, token).0, if first then a else b);
            && h == (if first then Pair(after, b, turns) else Pair(a, after, turns))
            && Is(after, Started(e.job, token), e.mirror, e.delivery)
  {
    var h, id := Pair(a, b, turns), if first then "a" else "b";
    PairIsPositioned(a, b, turns);
    assert h.entries["a"] == a && h.entries["b"] == b && h.entries.Keys == {"a", "b"};
    assert IsFirst(h.entries, 0.0, id);
    ClaimStarts(h, token, id);
    var e := h.entries[id];
    var c := ClaimChange(CFG, e, 0.0, token);
    PutFirst(a, b, turns, c);
    after := Hosted.CommitByCount(e, c);
    hide Positioned, IsFirst, Hosted.Put;
    assert Hosted.Start(CFG, h, id, 0.0, token).0 == Hosted.Put(h, id, c);
  }

  lemma NotBlank()
    ensures !IsBlank("c") && !IsBlank(ReportOf("a")) && !IsBlank(ReportOf("b"))
  {
  }

  lemma PauseIsPut(h: Hosted.Store, e: Entry)
    requires "a" in h.entries && h.entries["a"] == e && PauseChange(e, "c", "t1", 0.0).Ok? && !IsBlank("c")
    ensures Hosted.Does(CFG, h, PauseA()).0 == Hosted.Put(h, "a", PauseChange(e, "c", "t1", 0.0).value)
  {
    hide IsBlank, Hosted.Put, PauseChange;
  }

  lemma NamedSteps(h: Hosted.Store)
    ensures Next(h, 3) == Hosted.Does(CFG, h, PauseA()).0
    ensures Next(h, 5) == Hosted.Does(CFG, h, Finalizing("b", "t2", "later")).0
    ensures Next(h, 8) == Hosted.Does(CFG, h, Finalizing("a", "t3", "earlier")).0
  {
    hide Hosted.Does, PauseA, Finalizing;
  }

  lemma Pausing(a: Entry, b: Entry) returns (after: Entry)
    requires Is(a, Started(JOB_A, "t1"), None, None)
    ensures Next(Pair(a, b, map[]), 3) == Pair(after, b, map[])
    ensures Is(after, JOB_A.(status := PausedApproval, checkpoint := Some("c")), None, None)
  {
    hide Hosted.Put, Pair, Next, IsBlank, Hosted.Does, PauseA;
    PairRows(a, b, map[]);
    var c := PauseChange(a, "c", "t1", 0.0).value;
    PutFirst(a, b, map[], c);
    NotBlank();
    PauseIsPut(Pair(a, b, map[]), a);
    NamedSteps(Pair(a, b, map[]));
    after := Hosted.CommitByCount(a, c);
  }

  lemma Deciding(a: Entry, b: Entry, turns: map<string, nat>) returns (after: Entry)
    requires Is(a, JOB_A.(status := PausedApproval, checkpoint := Some("c")), None, None)
    ensures Next(Pair(a, b, turns), 6) == Pair(after, b, turns)
    ensures Is(after, DECIDED_A, Some(ROW), None)
  {
    var c := Change(a.job.(status := Queued), Some(ROW), None, Some(DecisionRecorded("c", Accept)));
    PutFirst(a, b, turns, c);
    after := Hosted.CommitByCount(a, c);
    hide Hosted.Put;
  }

  lemma FinalizeIsPut(h: Hosted.Store, id: string, e: Entry, token: string, content: string)
    requires !IsBlank(ReportOf(id)) && id in h.entries && h.entries[id] == e && e.delivery.None?
    requires FinalizeChange(id, e, ReportOf(id), token, 0.0, Some(content)).Ok?
    ensures Hosted.Does(CFG, h, Finalizing(id, token, content)).0
         == Hosted.Put(h, id, FinalizeChange(id, e, ReportOf(id), token, 0.0, Some(content)).value).(turns := h.turns[id := |h.turns|])
  {
    hide IsBlank, Hosted.Put, FinalizeChange, ReportOf;
    assert e.(delivery := None) == e;
  }

  lemma FinalChange(id: string, e: Entry, job: Job, token: string, content: string)
    requires e.job == Started(job, token) && e.delivery.None?
    ensures var r := FinalizeChange(id, e, ReportOf(id), token, 0.0, Some(content));
            && r.Ok?
            && Is(Hosted.CommitByCount(e, r.value), Done(job, id, content), e.mirror, Some(FreshDelivery(job.owner)))
  {
  }

  lemma FinalizingB(a: Entry, b: Entry) returns (after: Entry)
    requires Is(b, Started(JOB_B, "t2"), None, None)
    ensures Next(Pair(a, b, map[]), 5) == Pair(a, after, map["b" := 0])
    ensures Is(after, DONE_B, None, Some(FreshDelivery("owner")))
  {
    FinalChange("b", b, JOB_B, "t2", "later");
    hide IsBlank, Hosted.Put, Pair, Next, Hosted.Does, Finalizing, FinalizeChange, ReportOf, Started, Done;
    NotBlank();
    PairRows(a, b, map[]);
    var c := FinalizeChange("b", b, ReportOf("b"), "t2", 0.0, Some("later")).value;
    PutFirst(a, b, map[], c);
    FinalizeIsPut(Pair(a, b, map[]), "b", b, "t2", "later");
    NamedSteps(Pair(a, b, map[]));
    after := Hosted.CommitByCount(b, c);
    NoTurnYet(a, after);
  }

  lemma FinalizingA(a: Entry, b: Entry) returns (after: Entry)
    requires Is(a, Started(DECIDED_A, "t3"), Some(ROW), None)
    ensures Next(Pair(a, b, map["b" := 0]), 8) == Pair(after, b, map["b" := 0, "a" := 1])
    ensures Is(after, Done(DECIDED_A, "a", "earlier"), Some(ROW), Some(FreshDelivery("owner")))
  {
    FinalChange("a", a, DECIDED_A, "t3", "earlier");
    hide IsBlank, Hosted.Put, Pair, Next, Hosted.Does, Finalizing, FinalizeChange, ReportOf, Started, Done;
    NotBlank();
    PairRows(a, b, map["b" := 0]);
    var c := FinalizeChange("a", a, ReportOf("a"), "t3", 0.0, Some("earlier")).value;
    PutFirst(a, b, map["b" := 0], c);
    FinalizeIsPut(Pair(a, b, map["b" := 0]), "a", a, "t3", "earlier");
    NamedSteps(Pair(a, b, map["b" := 0]));
    after := Hosted.CommitByCount(a, c);
    PairTurns(after, b);
    OneTurn();
  }

  lemma NoTurnYet(a: Entry, b: Entry)
    ensures var turns: map<string, nat> := map[];
            Pair(a, b, turns).(turns := turns["b" := |turns|]) == Pair(a, b, map["b" := 0])
  {
    var turns: map<string, nat> := map[];
    assert turns["b" := |turns|] == map["b" := 0];
  }

  lemma OneTurn()
    ensures var turns: map<string, nat> := map["b" := 0]; |turns| == 1 && turns["a" := 1] == map["b" := 0, "a" := 1]
  {
    var turns: map<string, nat> := map["b" := 0];
    assert |turns| == |turns.Keys| == |{"b"}| == 1;
    assert turns["a" := 1] == map["b" := 0, "a" := 1];
  }

  lemma PairTurns(a: Entry, b: Entry)
    ensures Pair(a, b, map["b" := 0]).(turns := map["b" := 0, "a" := 1]) == Pair(a, b, map["b" := 0, "a" := 1])
  {
  }

  ghost function Next(h: Hosted.Store, k: nat): Hosted.Store
    requires k < 9
  {
    Hosted.Does(CFG, h, Scenario()[k]).0
  }

  /** Where the rest of the scenario leads. */
  ghost function End(h: Hosted.Store, k: nat): Hosted.Store
    requires k <= 9
  {
    Hosted.HostedRun(CFG, h, Scenario()[k..]).0
  }

  lemma OneMore(h: Hosted.Store, k: nat)
    requires k < 9
    ensures End(h, k) == End(Next(h, k), k + 1)
  {
    var ops := Scenario();
    assert |ops| == 9;
    hide Hosted.Does, Scenario;
    assert ops[k..][0] == ops[k] && ops[k..][1..] == ops[k + 1..];
  }

  lemma WholeScenario(h: Hosted.Store)
    ensures End(h, 0) == Hosted.HostedRun(CFG, h, Scenario()).0 && End(h, 9) == h
  {
    assert Scenario()[0..] == Scenario() && Scenario()[9..] == [];
  }

  lemma ClaimsAreNext(h: Hosted.Store)
    ensures Next(h, 2) == Hosted.ClaimNext(CFG, h, 0.0, "t1").0
    ensures Next(h, 4) == Hosted.ClaimNext(CFG, h, 0.0, "t2").0
    ensures Next(h, 7) == Hosted.ClaimNext(CFG, h, 0.0, "t3").0
  {
    hide Hosted.ClaimNext;
  }

  lemma BothWait(h: Hosted.Store, a: Entry, b: Entry)
    requires h == Pair(a, b, map["b" := 0, "a" := 1])
    requires a.job.position == 1 && b.job.position == 2
    requires a.delivery == Some(FreshDelivery("owner")) && b.delivery == Some(FreshDelivery("owner"))
    ensures FirstDelivery(h.entries, 0.0) == Some("a") && Hosted.NextTurn(h, 0.0) == Some("b")
  {
    hide FirstDelivery, Hosted.NextTurn;
    OlderIsFirst(h, a, b);
    NewerIsNext(h, a, b);
  }

  lemma OlderIsFirst(h: Hosted.Store, a: Entry, b: Entry)
    requires h == Pair(a, b, map["b" := 0, "a" := 1]) && a.job.position == 1 && b.job.position == 2
    requires a.delivery == Some(FreshDelivery("owner")) && b.delivery == Some(FreshDelivery("owner"))
    ensures FirstDelivery(h.entries, 0.0) == Some("a")
  {
    PairIsPositioned(a, b, h.turns);
    assert h.entries.Keys == {"a", "b"};
    assert IsFirstDelivery(h.entries, 0.0, "a");
    hide Positioned, IsFirstDelivery, FirstDelivery;
    FirstDeliveryIsUnique(h.entries, 0.0, "a");
  }

  lemma NewerIsNext(h: Hosted.Store, a: Entry, b: Entry)
    requires h == Pair(a, b, map["b" := 0, "a" := 1])
    requires a.delivery == Some(FreshDelivery("owner")) && b.delivery == Some(FreshDelivery("owner"))
    ensures Hosted.NextTurn(h, 0.0) == Some("b")
  {
    OneTurn();
    assert h.entries.Keys == {"a", "b"} && h.turns.Keys == {"a", "b"};
    assert Hosted.IsNextTurn(h, 0.0, "b");
    assert |h.turns| == |h.turns.Keys| == 2;
    assert Hosted.TakesTurns(h);
    hide Hosted.IsNextTurn, Hosted.TakesTurns, Hosted.NextTurn;
    Hosted.NextTurnIsUnique(h, 0.0, "b");
  }

  // ---------------------------------------------------------------- the scenario is a legal run

  /** Job a's graph pauses at checkpoint c; job b's does not pause. */
  const PLAN: Plan := map["a" := "c"]

  const CLAIM: Op := OpClaimDelivery(0.0, "t4")

  ghost predicate Tracks(h: Hosted.Store, w: World, issued: set<string>) {
    Good(CFG, PLAN, w) && Hosted.Mirrored(h, w.db) && w.issued == issued
  }

  function IssuedBy(op: Op): set<string> {
    if op.OpClaimNext? then {op.token} else {}
  }

  lemma ScenarioIsShared(k: nat)
    requires k < 9
    ensures Hosted.Shared(Scenario()[k]) && !Scenario()[k].OpClaimDelivery?
  {
  }

  lemma TracksAtStart()
    ensures Tracks(EMPTY_STORE, EMPTY, {})
  {
    NotBlank();
    hide IsBlank;
  }

  lemma StepTracks(h: Hosted.Store, w: World, issued: set<string>, k: nat)
    requires k < 9 && Tracks(h, w, issued) && Legal(PLAN, w, Scenario()[k])
    ensures Tracks(Next(h, k), Step(CFG, w, Scenario()[k]), issued + IssuedBy(Scenario()[k]))
  {
    ScenarioIsShared(k);
    var op := Scenario()[k];
    hide Scenario, Good, Legal, Hosted.Mirrored, Hosted.Does, Hosted.SqliteSays, DbAfter, Granted;
    Hosted.OneStepAgrees(CFG, PLAN, h, w, op);
    StepKeepsGood(CFG, PLAN, w, op);
  }

  /** From this step on the scenario is legal, and ends in this world. */
  ghost predicate Leads(w: World, k: nat, end: World)
    requires k <= 9
  {
    LegalRun(CFG, PLAN, w, Scenario()[k..]) && Run(CFG, w, Scenario()[k..]) == end
  }

  lemma LeadsOn(w: World, k: nat, end: World)
    requires k < 9 && Legal(PLAN, w, Scenario()[k]) && Leads(Step(CFG, w, Scenario()[k]), k + 1, end)
    ensures Leads(w, k, end)
  {
    var ops := Scenario();
    assert |ops| == 9;
    hide Scenario, Legal, Step;
    assert ops[k..][0] == ops[k] && ops[k..][1..] == ops[k + 1..];
  }

  lemma LeadsAtTheEnd(w: World)
    ensures Leads(w, 9, w) && (Leads(EMPTY, 0, w) ==> LegalRun(CFG, PLAN, EMPTY, Scenario()) && Run(CFG, EMPTY, Scenario()) == w)
  {
    assert Scenario()[9..] == [] && Scenario()[0..] == Scenario();
  }

  lemma CreationsAreLegal(w: World)
    ensures "a" !in w.db.entries ==> Legal(PLAN, w, Scenario()[0])
    ensures "b" !in w.db.entries ==> Legal(PLAN, w, Scenario()[1])
  {
  }

  lemma ClaimsAreLegal(w: World)
    ensures "t1" !in w.issued ==> Legal(PLAN, w, Scenario()[2])
    ensures "t2" !in w.issued ==> Legal(PLAN, w, Scenario()[4])
    ensures "t3" !in w.issued ==> Legal(PLAN, w, Scenario()[7])
    ensures "t4" !in w.issued ==> Legal(PLAN, w, CLAIM)
  {
  }

  lemma OthersAreLegal(w: World)
    ensures "a" in w.db.entries && w.db.entries["a"].job.checkpoint.None? ==> Legal(PLAN, w, Scenario()[3])
    ensures Legal(PLAN, w, Scenario()[5]) && Legal(PLAN, w, Scenario()[6]) && Legal(PLAN, w, Scenario()[8])
  {
  }

  lemma IssuedInTurn()
    ensures {} + IssuedBy(Scenario()[0]) == {} && {} + IssuedBy(Scenario()[1]) == {}
    ensures {} + IssuedBy(Scenario()[2]) == {"t1"} && {"t1"} + IssuedBy(Scenario()[3]) == {"t1"}
    ensures {"t1"} + IssuedBy(Scenario()[4]) == {"t1", "t2"} && {"t1", "t2"} + IssuedBy(Scenario()[5]) == {"t1", "t2"}
    ensures {"t1", "t2"} + IssuedBy(Scenario()[6]) == {"t1", "t2"} && {"t1", "t2"} + IssuedBy(Scenario()[7]) == {"t1", "t2", "t3"}
    ensures {"t1", "t2", "t3"} + IssuedBy(Scenario()[8]) == {"t1", "t2", "t3"}
  {
  }

  lemma TrackedRows(h: Hosted.Store, w: World, issued: set<string>)
    requires Tracks(h, w, issued)
    ensures w.db.entries == h.entries && w.issued == issued && Hosted.Mirrored(h, w.db) && Good(CFG, PLAN, w)
  {
  }

  /** The hosted store before each step of the scenario and at the end. */
  ghost predicate IsStory(hs: seq<Hosted.Store>)
    requires |hs| == 10
  {
    && hs[0] == EMPTY_STORE
    && hs[1] == Next(hs[0], 0) && hs[2] == Next(hs[1], 1) && hs[3] == Next(hs[2], 2)
    && hs[4] == Next(hs[3], 3) && hs[5] == Next(hs[4], 4) && hs[6] == Next(hs[5], 5)
    && hs[7] == Next(hs[6], 6) && hs[8] == Next(hs[7], 7) && hs[9] == Next(hs[8], 8)
  }

  lemma ScenarioIsLegal(hs: seq<Hosted.Store>) returns (end: World)
    requires |hs| == 10 && IsStory(hs)
    requires "b" !in hs[1].entries && "a" in hs[3].entries && hs[3].entries["a"].job.checkpoint.None?
    ensures LegalRun(CFG, PLAN, EMPTY, Scenario()) && Run(CFG, EMPTY, Scenario()) == end
    ensures Tracks(hs[9], end, {"t1", "t2", "t3"})
  {
    TracksAtStart();
    IssuedInTurn();
    NineSteps();
    hide Tracks, Scenario, Legal, Step, Leads, IssuedBy, Next, Run, LegalRun;
    assert EMPTY.db.entries == map[];
    CreationsAreLegal(EMPTY);
    var w1 := Tracked(hs[0], EMPTY, {}, 0, {}, hs[1]);
    CreationsAreLegal(w1);
    var w2 := Tracked(hs[1], w1, {}, 1, {}, hs[2]);
    ClaimsAreLegal(w2);
    var w3 := Tracked(hs[2], w2, {}, 2, {"t1"}, hs[3]);
    OthersAreLegal(w3);
    var w4 := Tracked(hs[3], w3, {"t1"}, 3, {"t1"}, hs[4]);
    ClaimsAreLegal(w4);
    var w5 := Tracked(hs[4], w4, {"t1"}, 4, {"t1", "t2"}, hs[5]);
    OthersAreLegal(w5);
    var w6 := Tracked(hs[5], w5, {"t1", "t2"}, 5, {"t1", "t2"}, hs[6]);
    OthersAreLegal(w6);
    var w7 := Tracked(hs[6], w6, {"t1", "t2"}, 6, {"t1", "t2"}, hs[7]);
    ClaimsAreLegal(w7);
    var w8 := Tracked(hs[7], w7, {"t1", "t2"}, 7, {"t1", "t2", "t3"}, hs[8]);
    OthersAreLegal(w8);
    end := Tracked(hs[8], w8, {"t1", "t2", "t3"}, 8, {"t1", "t2", "t3"}, hs[9]);
    LeadsAtTheEnd(end);
    LeadsOn(w8, 8, end);
    LeadsOn(w7, 7, end);
    LeadsOn(w6, 6, end);
    LeadsOn(w5, 5, end);
    LeadsOn(w4, 4, end);
    LeadsOn(w3, 3, end);
    LeadsOn(w2, 2, end);
    LeadsOn(w1, 1, end);
    LeadsOn(EMPTY, 0, end);
  }

  lemma Tracked(h: Hosted.Store, w: World, issued: set<string>, k: nat, issued': set<string>, h': Hosted.Store) returns (w': World)
    requires k < |Scenario()| && k < 9 && Tracks(h, w, issued) && Legal(PLAN, w, Scenario()[k])
    requires issued' == issued + IssuedBy(Scenario()[k]) && h' == Next(h, k)
    ensures w' == Step(CFG, w, Scenario()[k])
    ensures Tracks(h', w', issued') && w'.db.entries == h'.entries && w'.issued == issued'
  {
    hide Scenario, Tracks, Legal, Step, Next, IssuedBy;
    StepTracks(h, w, issued, k);
    w' := Step(CFG, w, Scenario()[k]);
    TrackedRows(h', w', issued');
  }

  lemma NineSteps()
    ensures |Scenario()| == 9
  {
  }

  lemma NothingToReclaim(h: Hosted.Store, a: Entry, b: Entry)
    requires h == Pair(a, b, map["b" := 0, "a" := 1])
    requires a.delivery == Some(FreshDelivery("owner")) && b.delivery == Some(FreshDelivery("owner"))
    ensures Hosted.Outbox(CFG, h, 0.0) == h
  {
    forall id | id in h.entries
      ensures Hosted.CommitByCount(h.entries[id], ReclaimDeliveryChange(CFG, h.entries[id], 0.0)) == h.entries[id]
    {
    }
    assert Hosted.ReclaimDeliveriesByCount(CFG, h.entries, 0.0) == h.entries;
  }

  lemma PositionedOutbox(h: Hosted.Store, w: World, issued: set<string>)
    requires Tracks(h, w, issued)
    ensures Hosted.TakesTurns(h) && Positioned(h.entries)
  {
    hide GoodEntry, GoodLedger, OneRunning, ExclusiveLab, UniqueRequests, AllIssued;
  }

  lemma OutOfOrderIsHeard(h: Hosted.Store, w: World, issued: set<string>)
    requires Tracks(h, w, issued) && "t4" !in issued && Hosted.Outbox(CFG, h, 0.0) == h
    requires FirstDelivery(h.entries, 0.0) != Hosted.NextTurn(h, 0.0)
    ensures Legal(PLAN, w, CLAIM) && Hosted.Does(CFG, h, CLAIM).1 != Hosted.SqliteSays(CFG, w.db, CLAIM)
  {
    PositionedOutbox(h, w, issued);
    ClaimsAreLegal(w);
    hide Good, Legal, Hosted.Mirrored, Hosted.Does, Hosted.SqliteSays, FirstDelivery, Hosted.NextTurn, Hosted.Outbox, Hosted.TakesTurns, Positioned,
      Hosted.TiesWereFinalizedInOrder;
    Hosted.PicksAgreeExactlyInOrder(h, 0.0);
    Hosted.DisorderIsHeard(CFG, PLAN, h, w, CLAIM);
  }

  lemma Story() returns (hs: seq<Hosted.Store>, a: Entry, b: Entry)
    ensures |hs| == 10 && IsStory(hs)
    ensures "a" in hs[3].entries && hs[3].entries["a"].job.checkpoint.None?
    ensures hs[9] == Pair(a, b, map["b" := 0, "a" := 1])
    ensures a.job.position == 1 && b.job.position == 2
    ensures a.delivery == Some(FreshDelivery("owner")) && b.delivery == Some(FreshDelivery("owner"))
  {
    hide Hosted.ClaimNext, Pair, Next, IsStory;
    var a0, b0 := Creating();
    var a1 := Claiming(a0, b0, map[], "t1", true);
    var a2 := Pausing(a1, b0);
    var b1 := Claiming(a2, b0, map[], "t2", false);
    b := FinalizingB(a2, b1);
    var a3 := Deciding(a2, b, map["b" := 0]);
    var a4 := Claiming(a3, b, map["b" := 0], "t3", true);
    a := FinalizingA(a4, b);
    PairRows(a1, b0, map[]);
    assert a1.job.checkpoint.None? && a.job.position == 1 && b.job.position == 2;
    hide Is;
    ClaimsAreNext(Pair(a0, b0, map[]));
    ClaimsAreNext(Pair(a2, b0, map[]));
    ClaimsAreNext(Pair(a3, b, map["b" := 0]));
    hs := Collect(Next(EMPTY_STORE, 0), Pair(a0, b0, map[]), Pair(a1, b0, map[]), Pair(a2, b0, map[]), Pair(a2, b1, map[]),
                  Pair(a2, b, map["b" := 0]), Pair(a3, b, map["b" := 0]), Pair(a4, b, map["b" := 0]), Pair(a, b, map["b" := 0, "a" := 1]));
  }

  lemma Collect(h1: Hosted.Store, h2: Hosted.Store, h3: Hosted.Store, h4: Hosted.Store, h5: Hosted.Store, h6: Hosted.Store,
                h7: Hosted.Store, h8: Hosted.Store, h9: Hosted.Store)
    returns (hs: seq<Hosted.Store>)
    requires h1 == Next(EMPTY_STORE, 0) && h2 == Next(h1, 1) && h3 == Next(h2, 2) && h4 == Next(h3, 3) && h5 == Next(h4, 4)
    requires h6 == Next(h5, 5) && h7 == Next(h6, 6) && h8 == Next(h7, 7) && h9 == Next(h8, 8)
    ensures |hs| == 10 && IsStory(hs) && hs[3] == h3 && hs[9] == h9
  {
    hide Next;
    hs := [EMPTY_STORE, h1, h2, h3, h4, h5, h6, h7, h8, h9];
  }

  lemma StoryIsTheRun(hs: seq<Hosted.Store>)
    requires |hs| == 10 && IsStory(hs)
    ensures Hosted.HostedRun(CFG, EMPTY_STORE, Scenario()).0 == hs[9]
  {
    WholeScenario(EMPTY_STORE);
    WholeScenario(hs[9]);
    hide Scenario, End, Hosted.HostedRun, Next;
    OneMore(hs[0], 0);
    OneMore(hs[1], 1);
    OneMore(hs[2], 2);
    OneMore(hs[3], 3);
    OneMore(hs[4], 4);
    OneMore(hs[5], 5);
    OneMore(hs[6], 6);
    OneMore(hs[7], 7);
    OneMore(hs[8], 8);
  }

  /** A legal run from the empty system, fed to both control planes. Both reports wait to be
      delivered; the older investigation's was finalized last. SQLite delivers it first, the hosted
      control plane delivers it last, so their next answers differ. */
  lemma OlderInvestigationIsDeliveredLast()
    ensures LegalRun(CFG, PLAN, EMPTY, Scenario()) && forall op | op in Scenario() :: Hosted.Shared(op)
    ensures var h, w := Hosted.HostedRun(CFG, EMPTY_STORE, Scenario()).0, Run(CFG, EMPTY, Scenario());
            && FirstDelivery(h.entries, 0.0) == Some("a") && Hosted.NextTurn(h, 0.0) == Some("b")
            && Legal(PLAN, w, CLAIM)
            && Hosted.Does(CFG, h, CLAIM).1 != Hosted.SqliteSays(CFG, w.db, CLAIM)
  {
    hide Scenario, Pair, Hosted.HostedRun, FirstDelivery, Hosted.NextTurn, Hosted.Does, Next, Run, LegalRun, Legal, Hosted.SqliteSays,
      Hosted.Outbox, Tracks, Hosted.Shared, IsStory;
    AllShared();
    var hs, a, b := Story();
    StoryIsTheRun(hs);
    StoryEnds(hs[9], a, b);
    StoryBegins(hs);
    var end := ScenarioIsLegal(hs);
    OutOfOrderIsHeard(hs[9], end, {"t1", "t2", "t3"});
  }

  lemma StoryEnds(h: Hosted.Store, a: Entry, b: Entry)
    requires h == Pair(a, b, map["b" := 0, "a" := 1])
    requires a.job.position == 1 && b.job.position == 2
    requires a.delivery == Some(FreshDelivery("owner")) && b.delivery == Some(FreshDelivery("owner"))
    ensures FirstDelivery(h.entries, 0.0) == Some("a") && Hosted.NextTurn(h, 0.0) == Some("b") && Hosted.Outbox(CFG, h, 0.0) == h
  {
    hide Pair, FirstDelivery, Hosted.NextTurn, Hosted.Outbox;
    BothWait(h, a, b);
    NothingToReclaim(h, a, b);
  }

  lemma StoryBegins(hs: seq<Hosted.Store>)
    requires |hs| == 10 && IsStory(hs)
    ensures "b" !in hs[1].entries
  {
    hide Next;
    FirstHasNoB();
  }

  lemma FirstHasNoB()
    ensures "b" !in Next(EMPTY_STORE, 0).entries
  {
  }

  lemma AllShared()
    ensures forall op | op in Scenario() :: Hosted.Shared(op)
  {
  }
}

/** The dearest batch `run_evaluation` can make, and exactly when the pre-flight check covers a model. */
module DearestBatch {
  import opened Wrappers
  import opened Text
  import opened CostLedger
  import opened SendGate
  import opened Graph
  import opened GraphTheorems
  import opened Preflight

  // ---------------------------------------------------------------- the dearest run

  const ABSTAINS: Turn<Assessment> := Parsed(Assessment(false, Undetermined, [], []))

  function Filler(n: nat): (s: string)
    ensures |s| == n
  {
    seq(n, i => 'x')
  }

  /** Which stages of the dearest run are corrected: turns first. */
  predicate Corrected(b: Budgets, noTools: bool, node: Node, turn: nat) {
    if node == Investigate then turn < b.repairs else b.repairs > if noTools then 0 else b.modelCalls - 1
  }

  /** Every request fills the cap, with its correction if it gets one. */
  function DearText(b: Budgets, noTools: bool, shown: Shown): string {
    Filler(if Corrected(b, noTools, shown.node, shown.turn) then MAX_INPUT_TOKENS - |CORRECTION| - 1 else MAX_INPUT_TOKENS)
  }

  function DearSetup(b: Budgets, noTools: bool, id: string): Setup {
    Setup(id, b, true, noTools, ["alert", "metrics"], "", shown => DearText(b, noTools, shown))
  }

  /** Every proposal is denied, so that turn follows turn. */
  function Rounds(b: Budgets, t: nat): seq<Input>
    requires t <= b.modelCalls - 1
    decreases b.modelCalls - t
  {
    if t == b.modelCalls - 1 then [] else DeniedRound(t < b.repairs) + Rounds(b, t + 1)
  }

  function Finish(corrected: bool): seq<Input> {
    [Assessing(false, if corrected then Bad("?") else ABSTAINS, ABSTAINS), Reporting(0.0)]
  }

  function DearRun(b: Budgets, noTools: bool, id: string): Scored
    requires b.modelCalls >= 2
  {
    Scored(DearSetup(b, noTools, id),
           if noTools then Finish(b.repairs > 0) else Rounds(b, 0) + Finish(b.repairs > b.modelCalls - 1))
  }

  /** Nothing the gate refuses, unless for the ceiling. */
  ghost predicate Sendable(asked: seq<Asked>) {
    forall i | 0 <= i < |asked| ::
      Estimate(asked[i].request) <= MAX_INPUT_TOKENS && asked[i].request.errors != Some("")
      && (asked[i].reply.Usable? || asked[i].reply.Unusable?)
  }

  lemma DearRequest(p: Pricing, b: Budgets, noTools: bool, id: string, s: State, c: Counters, errors: Option<string>)
    requires errors.None? || (errors == Some("?") && Corrected(b, noTools, s.node, s.turn))
    ensures var r := RequestAt(DearSetup(b, noTools, id), s, c, errors);
            var short := Corrected(b, noTools, s.node, s.turn) && errors.None?;
            && r.phase == PhaseName(s.node)
            && Estimate(r) == (if short then MAX_INPUT_TOKENS - |CORRECTION| - 1 else MAX_INPUT_TOKENS)
            && Charge(p, r) == (if short then Short(p, ToolTokens(r.phase)) else Full(p, ToolTokens(r.phase)))
  {
    var r := RequestAt(DearSetup(b, noTools, id), s, c, errors);
    assert r.system + r.context == r.context;
    assert Content(r) == if errors.None? then r.context else r.context + CORRECTION + "?";
    assert r.system + Content(r) == Content(r);
    hide Worst, ToolTokens, PhaseName, Corrected;
  }

  /** A stage of the dearest run asks once, or twice if it is corrected, as dearly as it can. */
  lemma DearStage<T>(p: Pricing, b: Budgets, noTools: bool, id: string, s: State, answer: Turn<T>)
    requires answer.Parsed? && CallsLeft(s.counters, b) > 0
    requires Corrected(b, noTools, s.node, s.turn) ==> s.counters.repairs < b.repairs
    ensures var corrected, tokens := Corrected(b, noTools, s.node, s.turn), ToolTokens(PhaseName(s.node));
            var asks := Asks(DearSetup(b, noTools, id), s, false, if corrected then Bad("?") else answer, answer);
            Sendable(asks) && Charges(p, asks) == Full(p, tokens) + if corrected then Short(p, tokens) else 0.0
  {
    var corrected := Corrected(b, noTools, s.node, s.turn);
    var asks := Asks(DearSetup(b, noTools, id), s, false, if corrected then Bad("?") else answer, answer);
    var again := Called(s.counters).(repairs := s.counters.repairs + 1);
    DearRequest(p, b, noTools, id, s, s.counters, None);
    if corrected { DearRequest(p, b, noTools, id, s, again, Some("?")); }
    assert asks[0].request == RequestAt(DearSetup(b, noTools, id), s, s.counters, None);
    assert corrected ==> |asks| == 2 && asks[1].request == RequestAt(DearSetup(b, noTools, id), s, again, Some("?"));
    assert !corrected ==> |asks| == 1;
    hide RequestAt, Estimate, Charge, Full, Short, ToolTokens, Corrected, Asks;
    ChargesOfTwo(p, asks);
  }

  lemma ChargesOfTwo(p: Pricing, asked: seq<Asked>)
    requires 1 <= |asked| <= 2
    ensures Charges(p, asked) == Charge(p, asked[0].request) + if |asked| == 2 then Charge(p, asked[1].request) else 0.0
  {
    hide Charge;
    assert asked[..1][..0] == [] && asked[..1][0] == asked[0];
    assert Charges(p, asked[..1]) == Charge(p, asked[0].request);
    if |asked| == 1 { assert asked[..1] == asked; }
  }

  lemma SendableAppend(asked: seq<Asked>, more: seq<Asked>)
    requires Sendable(asked) && Sendable(more)
    ensures Sendable(asked + more)
  {
    hide Estimate;
    forall i | 0 <= i < |asked + more| ensures (asked + more)[i] == if i < |asked| then asked[i] else more[i - |asked|] {}
  }

  function Least(x: nat, y: nat): nat {
    if x < y then x else y
  }

  function StageAfter(b: Budgets, t: nat): Node {
    if t < b.modelCalls - 1 then Investigate else FinalAssessment
  }

  /** After `t` rounds of the dearest run; what was asked and what is ahead cost as much as the start. */
  ghost predicate Underway(p: Pricing, b: Budgets, id: string, s: State, t: nat, cost: Money)
    requires t <= b.modelCalls - 1
  {
    && AfterDenials(DearSetup(b, false, id), s, t, Least(t, b.repairs), StageAfter(b, t))
    && Sendable(s.asked)
    && Charges(p, s.asked) + Ahead(p, b.modelCalls - 1 - t, b.repairs - Least(t, b.repairs)) == cost
  }

  lemma OneRound(p: Pricing, b: Budgets, id: string, s: State, t: nat, cost: Money)
    requires p.Valid() && b.modelCalls >= 2 && b.executedTools > 0 && t < b.modelCalls - 1 && Underway(p, b, id, s, t, cost)
    ensures var setup, round := DearSetup(b, false, id), DeniedRound(t < b.repairs);
            Playable(setup, s, round) && Underway(p, b, id, Play(setup, s, round), t + 1, cost)
  {
    hide Step, Play, Playable, Asks, Sendable, Charges, Ahead, Full, Short, DeniedRound, SlotsSpent;
    var setup, corrected := DearSetup(b, false, id), t < b.repairs;
    DeniedRoundPlays(setup, s, t, Least(t, b.repairs), corrected);
    DearStage(p, b, false, id, s, PROPOSED);
    var asks := Asks(setup, s, false, if corrected then Bad("?") else PROPOSED, PROPOSED);
    assert Corrected(b, false, s.node, s.turn) == corrected;
    SendableAppend(s.asked, asks);
    ChargesAppend(p, s.asked, asks);
    OneTurnMore(p, b.modelCalls - 1 - t, b.repairs - Least(t, b.repairs));
  }

  lemma {:induction false} RoundsPlay(p: Pricing, b: Budgets, id: string, s: State, t: nat, cost: Money)
    requires p.Valid() && b.modelCalls >= 2 && b.executedTools > 0 && t <= b.modelCalls - 1 && Underway(p, b, id, s, t, cost)
    ensures var setup := DearSetup(b, false, id);
            Playable(setup, s, Rounds(b, t)) && Underway(p, b, id, Play(setup, s, Rounds(b, t)), b.modelCalls - 1, cost)
    decreases b.modelCalls - t
  {
    var setup := DearSetup(b, false, id);
    if t == b.modelCalls - 1 {
      hide DearSetup, Underway;
    } else {
      hide Step, Play, Playable, DeniedRound, DearSetup, Underway, Least;
      var round := DeniedRound(t < b.repairs);
      assert Rounds(b, t) == round + Rounds(b, t + 1);
      hide Rounds;
      OneRound(p, b, id, s, t, cost);
      RoundsPlay(p, b, id, Play(setup, s, round), t + 1, cost);
      PlayingOn(setup, s, round, Rounds(b, t + 1));
    }
  }

  lemma FinishPlays(p: Pricing, b: Budgets, noTools: bool, id: string, s: State)
    requires s.node == FinalAssessment && CallsLeft(s.counters, b) > 0 && Sendable(s.asked) && s.escalation.None?
    requires s.counters.repairs <= b.repairs && (noTools <==> s.turn == 0) && (noTools || s.turn == b.modelCalls - 1)
    requires s.counters.repairs == Least(s.turn, b.repairs)
    ensures var setup, end := DearSetup(b, noTools, id), Finish(b.repairs > s.turn);
            var s' := Play(setup, s, end);
            && Playable(setup, s, end) && Sendable(s'.asked) && s'.report.Some? && s'.report.value.reason.None?
            && Charges(p, s'.asked) == Charges(p, s.asked) + Ahead(p, 0, b.repairs - s.counters.repairs)
  {
    var setup, end := DearSetup(b, noTools, id), Finish(b.repairs > s.turn);
    DearStage(p, b, noTools, id, s, ABSTAINS);
    OneAssessment(p, b.repairs - s.counters.repairs);
    var asks := Asks(setup, s, false, if b.repairs > s.turn then Bad("?") else ABSTAINS, ABSTAINS);
    assert Corrected(b, noTools, s.node, s.turn) == (b.repairs > s.turn);
    hide Asks, Sendable, Charges, Ahead, Full, Short, Corrected;
    var s1, s2 := FinishSteps(setup, s, b.repairs > s.turn);
    SendableAppend(s.asked, asks);
    ChargesAppend(p, s.asked, asks);
  }

  lemma FinishSteps(setup: Setup, s: State, corrected: bool) returns (s1: State, s2: State)
    requires s.node == FinalAssessment && CallsLeft(s.counters, setup.budgets) > 0 && s.escalation.None? && setup.suppressEscalation
    requires corrected ==> s.counters.repairs < setup.budgets.repairs
    ensures s2 == Play(setup, s, Finish(corrected)) && Playable(setup, s, Finish(corrected))
    ensures s2.asked == s.asked + Asks(setup, s, false, if corrected then Bad("?") else ABSTAINS, ABSTAINS)
    ensures s2.report.Some? && s2.report.value.reason.None?
  {
    var end := Finish(corrected);
    hide Asks, EscalationReasonOf;
    s1 := Step(setup, s, end[0]);
    assert s1.node == FinalReport && s1.escalation.None? && s1.assessment == Some(ABSTAINS.value);
    s2 := Step(setup, s1, end[1]);
    assert Milliseconds(0.0) == 0;
    assert end[1..][0] == end[1] && end[1..][1..] == [];
    assert Play(setup, s1, end[1..]) == s2 && Playable(setup, s1, end[1..]);
  }

  lemma FinishIsExplained(corrected: bool)
    ensures forall input | input in Finish(corrected) :: Explained(input)
  {
  }

  lemma {:induction false} RoundsAreExplained(b: Budgets, t: nat)
    requires t <= b.modelCalls - 1
    ensures forall input | input in Rounds(b, t) :: Explained(input)
    decreases b.modelCalls - t
  {
    if t < b.modelCalls - 1 {
      RoundsAreExplained(b, t + 1);
      assert forall input | input in DeniedRound(t < b.repairs) :: Explained(input);
      hide DeniedRound, Explained;
    }
  }

  lemma BaselinePlays(p: Pricing, b: Budgets, id: string)
    requires p.Valid() && b.modelCalls >= 2
    ensures var run := DearRun(b, true, id);
            Plays(run, b) && GoesOn(run) && Sendable(EndOf(run).asked) && Charges(p, EndOf(run).asked) == WorstRun(p, b, true)
  {
    var setup := DearSetup(b, true, id);
    var s := Start(setup);
    assert s.asked == [] && s.node == FinalAssessment && s.counters == Counters(0, 0, 0) && s.escalation.None? && s.turn == 0;
    assert Sendable(s.asked) && Charges(p, s.asked) == 0.0;
    hide Play, Playable, Start, Sendable, Charges, Ahead, Finish;
    FinishPlays(p, b, true, id, s);
  }

  lemma StartIsUnderway(p: Pricing, b: Budgets, id: string)
    requires p.Valid() && b.modelCalls >= 2
    ensures Underway(p, b, id, Start(DearSetup(b, false, id)), 0, WorstRun(p, b, false))
  {
    hide Ahead;
  }

  lemma UnderwayToTheEnd(p: Pricing, b: Budgets, id: string, s: State, cost: Money)
    requires b.modelCalls >= 2 && Underway(p, b, id, s, b.modelCalls - 1, cost)
    ensures s.node == FinalAssessment && s.turn == b.modelCalls - 1 && s.counters.repairs == Least(s.turn, b.repairs) <= b.repairs
    ensures CallsLeft(s.counters, b) > 0 && Sendable(s.asked)
    ensures Charges(p, s.asked) + Ahead(p, 0, b.repairs - s.counters.repairs) == cost
  {
    hide Ahead, Charges, Sendable;
  }

  lemma WithToolsPlays(p: Pricing, b: Budgets, id: string)
    requires p.Valid() && b.modelCalls >= 2 && b.executedTools > 0
    ensures var run := DearRun(b, false, id);
            Plays(run, b) && GoesOn(run) && Sendable(EndOf(run).asked) && Charges(p, EndOf(run).asked) == WorstRun(p, b, false)
  {
    hide Play, Playable, Start, Sendable, Charges, Ahead, Finish, Rounds, DearSetup, Invariant, Underway, WorstRun;
    var setup, rounds, end := DearSetup(b, false, id), Rounds(b, 0), Finish(b.repairs > b.modelCalls - 1);
    var s, cost := Start(setup), WorstRun(p, b, false);
    StartIsUnderway(p, b, id);
    InvariantAtStart(setup);
    RoundsPlay(p, b, id, s, 0, cost);
    var s1 := Play(setup, s, rounds);
    PlaysAreBounded(setup, s, rounds);
    UnderwayToTheEnd(p, b, id, s1, cost);
    AssessmentIsUntouched(setup, s1);
    FinishPlays(p, b, false, id, s1);
    PlayingOn(setup, s, rounds, end);
    SetupIsDear(b, id);
  }

  lemma SetupIsDear(b: Budgets, id: string)
    ensures var setup := DearSetup(b, false, id); setup.budgets == b && setup.runId == id && !setup.noTools && setup.suppressEscalation
  {
  }

  lemma AssessmentIsUntouched(setup: Setup, s: State)
    requires Invariant(setup, s) && s.node == FinalAssessment
    ensures s.escalation.None?
  {
  }

  lemma DearRunPlays(p: Pricing, b: Budgets, noTools: bool, id: string)
    requires p.Valid() && b.modelCalls >= 2 && b.executedTools > 0
    ensures var run := DearRun(b, noTools, id);
            && Plays(run, b) && GoesOn(run) && Sendable(EndOf(run).asked)
            && Charges(p, EndOf(run).asked) == WorstRun(p, b, noTools)
  {
    if noTools { BaselinePlays(p, b, id); } else { WithToolsPlays(p, b, id); }
  }

  lemma NothingAskedAtStart(setup: Setup)
    ensures AllNew(setup, Start(setup))
  {
  }

  lemma DearRunIsExplained(b: Budgets, noTools: bool, id: string)
    requires b.modelCalls >= 2
    ensures forall input | input in DearRun(b, noTools, id).inputs :: Explained(input)
  {
    hide Explained, Finish, Rounds, DearSetup;
    FinishIsExplained(b.repairs > 0);
    FinishIsExplained(b.repairs > b.modelCalls - 1);
    RoundsAreExplained(b, 0);
  }

  lemma NewIsOwn(setup: Setup, s: State)
    requires AllNew(setup, s)
    ensures NoneAskedTwice(s.asked) && forall i | 0 <= i < |s.asked| :: s.asked[i].request.runId == setup.runId
  {
    hide NoneAskedTwice;
    forall i | 0 <= i < |s.asked| ensures s.asked[i].request.runId == setup.runId {
      assert AskedBefore(setup, s, KeyOf(s.asked[i].request));
    }
  }

  lemma DearRunAsksNew(b: Budgets, noTools: bool, id: string)
    requires b.modelCalls >= 2 && Plays(DearRun(b, noTools, id), b)
    ensures var asked := EndOf(DearRun(b, noTools, id)).asked;
            NoneAskedTwice(asked) && forall i | 0 <= i < |asked| :: asked[i].request.runId == id
  {
    hide Play, Playable, Start, Invariant, NoneAskedTwice, Explained, AllNew;
    var run := DearRun(b, noTools, id);
    assert run.setup.runId == id;
    DearRunIsExplained(b, noTools, id);
    hide DearRun, DearSetup, Finish, Rounds;
    NothingAskedAtStart(run.setup);
    InvariantAtStart(run.setup);
    PlayAsksNew(run.setup, Start(run.setup), run.inputs);
    NewIsOwn(run.setup, EndOf(run));
  }

  // ---------------------------------------------------------------- the dearest batch

  function DearBatch(b: Budgets, n: nat): (batch: seq<Scored>)
    requires b.modelCalls >= 2
    ensures |batch| == n
    ensures forall k | 0 <= k < n :: batch[k] == DearRun(b, IsBaseline(k), Filler(k))
  {
    if n == 0 then [] else DearBatch(b, n - 1) + [DearRun(b, IsBaseline(n - 1), Filler(n - 1))]
  }

  lemma DearBatchIsLegal(p: Pricing, b: Budgets)
    requires p.Valid() && b.modelCalls >= 2 && b.executedTools > 0
    ensures LegalBatch(DearBatch(b, RUNS), b)
  {
    var batch := DearBatch(b, RUNS);
    hide Plays, GoesOn;
    forall k | 0 <= k < |batch|
      ensures Plays(batch[k], b) && GoesOn(batch[k]) && batch[k].setup.suppressEscalation
      ensures batch[k].setup.runId == Filler(k) && (batch[k].setup.noTools <==> IsBaseline(k))
    {
      DearRunPlays(p, b, IsBaseline(k), Filler(k));
    }
    forall j, k | 0 <= j < k < |batch| ensures batch[j].setup.runId != batch[k].setup.runId {
      assert |Filler(j)| != |Filler(k)|;
    }
  }

  /** Calls whose runs are all among the first `n`. */
  ghost predicate OfFirst(asked: seq<Asked>, n: nat) {
    NoneAskedTwice(asked) && forall i | 0 <= i < |asked| :: |asked[i].request.runId| < n
  }

  lemma OneRunMoreIsNew(rest: seq<Asked>, last: seq<Asked>, id: string)
    requires OfFirst(rest, |id|) && NoneAskedTwice(last) && forall i | 0 <= i < |last| :: last[i].request.runId == id
    ensures OfFirst(rest + last, |id| + 1)
  {
    hide KeyOf, NoneAskedTwice;
    forall i, j | 0 <= i < |rest| && 0 <= j < |last| ensures KeyOf(rest[i].request) != KeyOf(last[j].request) {
      assert |rest[i].request.runId| != |last[j].request.runId|;
      KeysNameTheirRun(rest[i].request, last[j].request);
    }
    AppendingNewCalls(rest, last);
  }

  lemma DearBatchGrows(b: Budgets, n: nat)
    requires b.modelCalls >= 2 && n > 0
    ensures AllAsked(DearBatch(b, n)) == AllAsked(DearBatch(b, n - 1)) + EndOf(DearRun(b, IsBaseline(n - 1), Filler(n - 1))).asked
  {
    hide DearRun, EndOf;
    assert DearBatch(b, n)[..n - 1] == DearBatch(b, n - 1);
  }

  ghost predicate Dear(p: Pricing, asked: seq<Asked>, cost: Money, n: nat) {
    Charges(p, asked) == cost && Sendable(asked) && OfFirst(asked, n)
  }

  lemma DearGrows(p: Pricing, b: Budgets, rest: seq<Asked>, cost: Money, noTools: bool, n: nat)
    requires p.Valid() && b.modelCalls >= 2 && b.executedTools > 0 && Dear(p, rest, cost, n)
    ensures Dear(p, rest + EndOf(DearRun(b, noTools, Filler(n))).asked, cost + WorstRun(p, b, noTools), n + 1)
  {
    hide Charges, WorstRun, Sendable, DearRun, EndOf, Plays, GoesOn, OfFirst, NoneAskedTwice;
    var last := EndOf(DearRun(b, noTools, Filler(n))).asked;
    DearRunPlays(p, b, noTools, Filler(n));
    DearRunAsksNew(b, noTools, Filler(n));
    ChargesAppend(p, rest, last);
    SendableAppend(rest, last);
    OneRunMoreIsNew(rest, last, Filler(n));
  }

  lemma EmptyBatchIsDear(p: Pricing, b: Budgets)
    requires b.modelCalls >= 2
    ensures Dear(p, AllAsked(DearBatch(b, 0)), WorstRuns(p, b, 0), 0)
  {
    hide WorstRun, DearRun, EndOf, Dear;
    EmptyIsFree(p);
  }

  lemma OneRunMoreIsDear(p: Pricing, b: Budgets, n: nat)
    requires p.Valid() && b.modelCalls >= 2 && b.executedTools > 0 && n > 0
    requires Dear(p, AllAsked(DearBatch(b, n - 1)), WorstRuns(p, b, n - 1), n - 1)
    ensures Dear(p, AllAsked(DearBatch(b, n)), WorstRuns(p, b, n), n)
  {
    hide Dear, WorstRun, DearRun, EndOf, IsBaseline;
    assert WorstRuns(p, b, n) == WorstRuns(p, b, n - 1) + WorstRun(p, b, IsBaseline(n - 1));
    DearBatchGrows(b, n);
    hide DearBatch, AllAsked, WorstRuns;
    DearGrows(p, b, AllAsked(DearBatch(b, n - 1)), WorstRuns(p, b, n - 1), IsBaseline(n - 1), n - 1);
  }

  lemma {:induction false} DearBatchCosts(p: Pricing, b: Budgets, n: nat)
    requires p.Valid() && b.modelCalls >= 2 && b.executedTools > 0
    ensures Dear(p, AllAsked(DearBatch(b, n)), WorstRuns(p, b, n), n)
  {
    hide Dear, WorstRuns, AllAsked, DearBatch;
    if n == 0 {
      EmptyBatchIsDear(p, b);
    } else {
      DearBatchCosts(p, b, n - 1);
      OneRunMoreIsDear(p, b, n);
    }
  }

  lemma KeysNameTheirRun(r: Request, r': Request)
    ensures KeyOf(r) == KeyOf(r') ==> r.runId == r'.runId
  {
  }

  lemma EmptyIsFree(p: Pricing)
    ensures Dear(p, [], 0.0, 0)
  {
  }

  // ---------------------------------------------------------------- one of its calls is refused

  /** Answered at no cost beyond the reservation. */
  function AttemptFor(call: Asked, p: Pricing, ceiling: Money): Attempt {
    Attempt(true, p, ceiling, call.request, ToolTokens(call.request.phase), Answers(0, 0))
  }

  function AttemptsFor(asked: seq<Asked>, p: Pricing, ceiling: Money): (attempts: seq<Attempt>)
    ensures |attempts| == |asked| && forall i | 0 <= i < |asked| :: attempts[i] == AttemptFor(asked[i], p, ceiling)
  {
    seq(|asked|, i requires 0 <= i < |asked| => AttemptFor(asked[i], p, ceiling))
  }

  const NO_BOOKS: Books := Books([], [])

  lemma AttemptIsOfBatch(call: Asked, p: Pricing, ceiling: Money)
    requires p.Valid()
    ensures OfBatch(AttemptFor(call, p, ceiling), p, ceiling)
  {
    var a := AttemptFor(call, p, ceiling);
    CostIsMonotone(p, 0, 0, Estimate(a.request) + a.toolTokens, MAX_OUTPUT_TOKENS);
    hide Cost, Estimate;
  }

  lemma GrantedIsAnswered(b: Books, call: Asked, p: Pricing, ceiling: Money)
    requires p.Valid() && ceiling >= 0.0 && Estimate(call.request) <= MAX_INPUT_TOKENS && call.request.errors != Some("")
    ensures var (b', o) := Send(b, AttemptFor(call, p, ceiling));
            o != OverCeiling && o != Ambiguous ==> o == Answered && Reserved(b'.rows) == Reserved(b.rows) + Charge(p, call.request)
  {
    var a := AttemptFor(call, p, ceiling);
    var key, row := KeyOf(a.request), Row(KeyOf(a.request), Price(a), None);
    ChargeIsNatural(p, call.request);
    assert Price(a) == Charge(p, call.request);
    SpentAfterAppend(b.rows, row);
    AppendedIsFound(b.rows, row);
    SpentAfterUpdate(b.rows + [row], |b.rows|, row.(actual := Some(Cost(p, 0, 0))));
    hide Price, KeyOf, Estimate, Cost, Spent, Reserved, Recorded, IndexOf, Charge;
  }

  lemma DistinctAttempts(asked: seq<Asked>, p: Pricing, ceiling: Money)
    requires NoneAskedTwice(asked)
    ensures DistinctRequests(AttemptsFor(asked, p, ceiling))
  {
  }

  lemma OneChargeMore(p: Pricing, asked: seq<Asked>, n: nat)
    requires n < |asked|
    ensures Charges(p, asked[..n + 1]) == Charges(p, asked[..n]) + Charge(p, asked[n].request)
  {
    hide Charge;
    assert asked[..n + 1][..n] == asked[..n] && asked[..n + 1][n] == asked[n];
  }

  lemma NeverAmbiguous(asked: seq<Asked>, p: Pricing, ceiling: Money, n: nat)
    requires NoneAskedTwice(asked) && n < |asked|
    ensures OutcomeOf(NO_BOOKS, AttemptsFor(asked, p, ceiling), n) != Ambiguous
  {
    hide Send, SendAll, NoneAskedTwice, DistinctRequests, KeyOf;
    DistinctAttempts(asked, p, ceiling);
    DistinctRequestsAreNeverAmbiguous(NO_BOOKS, AttemptsFor(asked, p, ceiling), n);
  }

  /** The next call is refused for the ceiling, or answered at its charge. */
  lemma NextCall(asked: seq<Asked>, p: Pricing, ceiling: Money, n: nat)
    requires p.Valid() && ceiling >= 0.0 && Sendable(asked) && NoneAskedTwice(asked) && n < |asked|
    requires Reserved(SendAll(NO_BOOKS, AttemptsFor(asked, p, ceiling)[..n]).rows) == Charges(p, asked[..n])
    ensures var attempts := AttemptsFor(asked, p, ceiling);
            var o := OutcomeOf(NO_BOOKS, attempts, n);
            o == OverCeiling || (o == Answered && Reserved(SendAll(NO_BOOKS, attempts[..n + 1]).rows) == Charges(p, asked[..n + 1]))
  {
    hide Send, SendAll, Charge, Charges, Reserved, NoneAskedTwice, KeyOf, Estimate, AttemptFor;
    var attempts := AttemptsFor(asked, p, ceiling);
    NeverAmbiguous(asked, p, ceiling, n);
    OneChargeMore(p, asked, n);
    GrantedIsAnswered(SendAll(NO_BOOKS, attempts[..n]), asked[n], p, ceiling);
    assert attempts[..n + 1] == attempts[..n] + [attempts[n]];
    SendingOneMore(NO_BOOKS, attempts[..n], attempts[n]);
  }

  /** Sent in order, these calls are answered up to the first the ceiling refuses; if it refuses none
      of the first `n`, they reserve all they can. */
  lemma {:induction false} AnsweredUntilRefused(asked: seq<Asked>, p: Pricing, ceiling: Money, n: nat) returns (i: nat)
    requires p.Valid() && ceiling >= 0.0 && Sendable(asked) && NoneAskedTwice(asked) && n <= |asked|
    ensures i <= n
    ensures forall j | 0 <= j < i :: OutcomeOf(NO_BOOKS, AttemptsFor(asked, p, ceiling), j) == Answered
    ensures i < n ==> OutcomeOf(NO_BOOKS, AttemptsFor(asked, p, ceiling), i) == OverCeiling
    ensures i == n ==> Reserved(SendAll(NO_BOOKS, AttemptsFor(asked, p, ceiling)[..n]).rows) == Charges(p, asked[..n])
    decreases n
  {
    hide OutcomeOf, Charge, Sendable, NoneAskedTwice, Send;
    if n == 0 {
      i := 0;
      assert AttemptsFor(asked, p, ceiling)[..0] == [] && asked[..0] == [];
    } else {
      hide SendAll, Charges, Reserved;
      i := AnsweredUntilRefused(asked, p, ceiling, n - 1);
      if i == n - 1 {
        NextCall(asked, p, ceiling, n - 1);
        if OutcomeOf(NO_BOOKS, AttemptsFor(asked, p, ceiling), n - 1) != OverCeiling { i := n; }
      }
    }
  }

  lemma ReservedFits(asked: seq<Asked>, p: Pricing, ceiling: Money)
    requires p.Valid() && ceiling >= BUFFER
    ensures Reserved(SendAll(NO_BOOKS, AttemptsFor(asked, p, ceiling)).rows) <= ceiling - BUFFER
  {
    var attempts := AttemptsFor(asked, p, ceiling);
    forall a | a in attempts ensures a.ceiling <= ceiling && Excess(a) <= 0.0 {
      var i :| 0 <= i < |attempts| && attempts[i] == a;
      AttemptIsOfBatch(asked[i], p, ceiling);
    }
    SequentialSpendIsBounded(NO_BOOKS, attempts, ceiling, 0.0);
  }

  /** A model whose worst batch costs more than the check assumed: on an empty ledger and under the
      smallest ceiling the check lets pass, there is a batch, legal in both arms and answered so far,
      one of whose calls is refused. */
  lemma UnderpricedCheckIsNotEnough(b: Budgets, probe: Pricing, p: Pricing)
    returns (batch: seq<Scored>, attempts: seq<Attempt>, ceiling: Money, i: nat)
    requires p.Valid() && probe.Valid() && b.modelCalls >= 2 && b.executedTools > 0
    requires WorstBatch(p, b) > Worth(BatchCalls(b), MaximumReservation(probe))
    ensures Passes([], probe, BatchCalls(b), ceiling)
    ensures Reaches(NO_BOOKS, b, batch, attempts, p, ceiling, i)
    ensures OutcomeOf(NO_BOOKS, attempts, i) == OverCeiling
  {
    MaximumIsPositive(probe);
    MoreIsWorthMore(0, BatchCalls(b), MaximumReservation(probe), MaximumReservation(probe));
    ceiling := Worth(BatchCalls(b), MaximumReservation(probe)) + BUFFER;
    batch := DearBatch(b, RUNS);
    var asked := AllAsked(batch);
    attempts := AttemptsFor(asked, p, ceiling);
    assert Passes([], probe, BatchCalls(b), ceiling);
    hide Worth, MaximumReservation, Passes, Charges, Sendable, NoneAskedTwice, AllAsked, DearBatch, WorstRun, LegalBatch, Send, SendAll, Reserved;
    DearBatchIsLegal(p, b);
    DearBatchCosts(p, b, RUNS);
    WorstPairs(p, b, INCIDENTS);
    i := AnsweredUntilRefused(asked, p, ceiling, |asked|);
    if i == |asked| {
      assert attempts[..i] == attempts && asked[..i] == asked;
      ReservedFits(asked, p, ceiling);
      assert false;
    }
    DearBatchReaches(b, p, ceiling, i);
  }

  lemma DearBatchReaches(b: Budgets, p: Pricing, ceiling: Money, i: nat)
    requires p.Valid() && b.modelCalls >= 2
    requires var batch := DearBatch(b, RUNS);
             var asked := AllAsked(batch);
             && LegalBatch(batch, b) && Sendable(asked) && i < |asked|
             && forall j | 0 <= j < i :: OutcomeOf(NO_BOOKS, AttemptsFor(asked, p, ceiling), j) == Answered
    ensures var batch := DearBatch(b, RUNS); Reaches(NO_BOOKS, b, batch, AttemptsFor(AllAsked(batch), p, ceiling), p, ceiling, i)
  {
    hide AllAsked, DearBatch, LegalBatch, Send, SendAll, ToolTokens, Estimate, OfBatch;
    var asked := AllAsked(DearBatch(b, RUNS));
    DearAttempts(asked, p, ceiling);
    hide Sends, AttemptsFor;
    forall j | 0 <= j < i ensures Explains(OutcomeOf(NO_BOOKS, AttemptsFor(asked, p, ceiling), j), asked[j].reply) {
      assert asked[j].reply.Usable? || asked[j].reply.Unusable?;
    }
  }

  lemma DearAttempts(asked: seq<Asked>, p: Pricing, ceiling: Money)
    requires p.Valid()
    ensures Sends(AttemptsFor(asked, p, ceiling), asked, p, ceiling)
  {
    hide ToolTokens, OfBatch;
    forall j | 0 <= j < |asked| ensures OfBatch(AttemptFor(asked[j], p, ceiling), p, ceiling) { AttemptIsOfBatch(asked[j], p, ceiling); }
  }

  // ---------------------------------------------------------------- exactly when

  /** Whenever the check passes, and however far the batch then gets, the ceiling refuses none of its
      calls. */
  ghost predicate Covers(b: Budgets, probe: Pricing, p: Pricing) {
    forall books: Books, batch: seq<Scored>, attempts: seq<Attempt>, ceiling: Money, i: nat |
        Passes(books.rows, probe, BatchCalls(b), ceiling) && Reaches(books, b, batch, attempts, p, ceiling, i) ::
      OutcomeOf(books, attempts, i) != OverCeiling
  }

  /** The pre-flight check covers a model if and only if the model's worst batch costs no more than the
      check assumed. */
  lemma CheckCoversExactlyWhen(b: Budgets, probe: Pricing, p: Pricing)
    requires p.Valid() && probe.Valid() && b.modelCalls >= 2 && b.executedTools > 0
    ensures Covers(b, probe, p) <==> WorstBatch(p, b) <= Worth(BatchCalls(b), MaximumReservation(probe))
  {
    hide WorstBatch, Worth, MaximumReservation, Passes, LegalBatch, Sends, AllAsked, Explains;
    if WorstBatch(p, b) <= Worth(BatchCalls(b), MaximumReservation(probe)) {
      forall books: Books, batch: seq<Scored>, attempts: seq<Attempt>, ceiling: Money, i: nat |
          Passes(books.rows, probe, BatchCalls(b), ceiling) && Reaches(books, b, batch, attempts, p, ceiling, i)
        ensures OutcomeOf(books, attempts, i) != OverCeiling
      {
        NoReservationOfTheBatchIsRefused(books, b, batch, attempts, probe, p, ceiling, i);
      }
    } else {
      var batch, attempts, ceiling, i := UnderpricedCheckIsNotEnough(b, probe, p);
      assert Passes(NO_BOOKS.rows, probe, BatchCalls(b), ceiling);
    }
  }

  /** `resolve_budgets`, for a point of the evidence-budget curve */
  function Resolved(executedTools: nat): Budgets {
    Budgets(executedTools + 2, executedTools, 2)
  }

  /** The check's constant is Sonnet's. At every point of the curve it covers Sonnet, Haiku and even a
      model half as dear again as Sonnet, and it does not cover Opus. */
  lemma WhoTheCheckCovers(executedTools: nat)
    requires executedTools in {2, 3, 4}
    ensures Covers(Resolved(executedTools), SONNET, SONNET) && Covers(Resolved(executedTools), SONNET, HAIKU)
    ensures Covers(Resolved(executedTools), SONNET, Pricing(3.0, 15.0))
    ensures !Covers(Resolved(executedTools), SONNET, OPUS)
  {
    var b := Resolved(executedTools);
    WorstAt(executedTools, 2.0, 10.0);
    WorstAt(executedTools, 1.0, 5.0);
    WorstAt(executedTools, 3.0, 15.0);
    WorstAt(executedTools, 5.0, 25.0);
    hide Covers, WorstBatch, Worth, MaximumReservation;
    CheckCoversExactlyWhen(b, SONNET, SONNET);
    CheckCoversExactlyWhen(b, SONNET, HAIKU);
    CheckCoversExactlyWhen(b, SONNET, Pricing(3.0, 15.0));
    CheckCoversExactlyWhen(b, SONNET, OPUS);
  }

  /** At the default budgets, in dollars. */
  lemma WhatTheDefaultsCost()
    ensures Worth(BatchCalls(Resolved(2)), MaximumReservation(SONNET)) == 9.019008
    ensures WorstBatch(SONNET, Resolved(2)) == 5.197776 && WorstBatch(OPUS, Resolved(2)) == 12.99444
  {
  }

  lemma WorstAt(executedTools: nat, input: Money, output: Money)
    requires executedTools in {2, 3, 4} && output == 5.0 * input && input in {1.0, 2.0, 3.0, 5.0}
    ensures WorstBatch(Pricing(input, output), Resolved(executedTools)) <= Worth(BatchCalls(Resolved(executedTools)), MaximumReservation(SONNET))
            <==> input < 5.0
  {
  }
}

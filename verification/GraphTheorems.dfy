/** What holds of every play of the investigation graph. */
module GraphTheorems {
  import opened Wrappers
  import opened Text
  import opened Decisions
  import opened Graph
  import SendGate
  import CostLedger
  import Evidence

  const RECURSION_LIMIT := 25

  /** Non-repair calls made so far. */
  function Charged(c: Counters): int {
    c.calls - c.repairs
  }

  function Cap(b: Budgets): int {
    if b.modelCalls > 2 then b.modelCalls else 2
  }

  predicate CitesOnly(a: Assessment, evidence: seq<string>) {
    forall id | id in a.supporting + a.contrary :: id in evidence
  }

  predicate WithinBudgets(b: Budgets, c: Counters) {
    && c.repairs <= c.calls
    && c.repairs <= b.repairs
    && Charged(c) <= if b.modelCalls > 0 then b.modelCalls else 0
  }

  predicate Untouched(s: State) {
    s.assessment.None? && s.routed.None? && s.escalation.None? && s.report.None?
  }

  ghost predicate Invariant(setup: Setup, s: State) {
    var b, charged := setup.budgets, Charged(s.counters);
    && WithinBudgets(b, s.counters)
    && match s.node
       case Investigate =>
         Untouched(s) && s.failure.None? && !setup.noTools && charged == s.turn <= Cap(b) - 2
       case Dispatch =>
         Untouched(s) && s.failure.None? && !setup.noTools && s.pending.Some? && 1 <= s.turn && charged == s.turn <= Cap(b) - 1
       case Normalize =>
         Untouched(s) && !setup.noTools && 1 <= s.turn && charged == s.turn <= Cap(b) - 1
       case FinalAssessment =>
         Untouched(s) && s.failure.None?
         && (if setup.noTools then charged == 0 && s.turn == 0 else 0 <= s.turn <= Cap(b) - 1 && 1 <= charged <= Cap(b) - 1)
       case Interrupt =>
         s.failure.None? && s.assessment.Some? && s.assessment.value.Valid() && CitesOnly(s.assessment.value, s.evidence)
         && s.escalation.None? && s.routed.Some? && s.report.None?
         && s.routed == EscalationReasonOf(s.receipts, s.assessment.value, b, s.passages)
       case _ =>
         && (s.failure.Some? <==> s.assessment.None?)
         && (s.assessment.Some? ==> s.assessment.value.Valid() && CitesOnly(s.assessment.value, s.evidence))
         && (s.escalation.Some? ==>
               s.assessment.Some? && s.routed == Some(s.escalation.value.reason)
               && s.routed == EscalationReasonOf(s.receipts, s.assessment.value, b, s.passages))
         && (s.node == FinalReport ==> s.report.None?)
  }

  lemma ConcludingKeepsInvariant(setup: Setup, s: State, verdict: Graph.Verdict<Assessment>)
    requires WithinBudgets(setup.budgets, s.counters) && Untouched(s) && (verdict.Got? ==> verdict.value.Valid())
    ensures Invariant(setup, Concluded(setup, s, verdict))
  {
    if verdict.Got? {
      Evidence.UnknownAreTheUncited(verdict.value.supporting + verdict.value.contrary, s.evidence);
    }
    hide Evidence.UnknownOf, EscalationReasonOf, WithinBudgets;
  }

  lemma AssessingKeepsInvariant(setup: Setup, s: State, expired: bool, answer: Turn<Assessment>, correction: Turn<Assessment>)
    requires Invariant(setup, s) && Fits(s, Assessing(expired, answer, correction))
    ensures Invariant(setup, Step(setup, s, Assessing(expired, answer, correction)))
  {
    AskStaysWithinBudgets(s.counters, setup.budgets, expired, answer, correction);
    var (c, verdict) := Ask(s.counters, setup.budgets, expired, answer, correction);
    assert WithinBudgets(setup.budgets, c) && (verdict.Got? ==> verdict.value.Valid());
    var asked := s.(counters := c, asked := s.asked + Asks(setup, s, expired, answer, correction));
    assert Untouched(asked);
    hide Ask, Asks, WithinBudgets, Concluded, Invariant;
    ConcludingKeepsInvariant(setup, asked, verdict);
  }

  lemma InvestigatingKeepsInvariant(setup: Setup, s: State, expired: bool, plan: Turn<Option<Tool>>, replan: Turn<Option<Tool>>)
    requires Invariant(setup, s) && s.node == Investigate
    ensures Invariant(setup, Step(setup, s, Investigating(expired, plan, replan)))
  {
    AskStaysWithinBudgets(s.counters, setup.budgets, expired, plan, replan);
    hide Asks, EscalationReasonOf;
  }

  lemma StepKeepsInvariant(setup: Setup, s: State, input: Input)
    requires Invariant(setup, s) && Fits(s, input)
    ensures Invariant(setup, Step(setup, s, input))
  {
    match input {
      case Investigating(expired, plan, replan) =>
        hide Invariant;
        InvestigatingKeepsInvariant(setup, s, expired, plan, replan);
      case Assessing(expired, answer, correction) =>
        hide Invariant;
        AssessingKeepsInvariant(setup, s, expired, answer, correction);
      case _ => hide EscalationReasonOf, FirstValid, BuildReport;
    }
  }

  // ---------------------------------------------------------------- termination

  /** Node executions a state still has ahead of it, at most. */
  function Rank(b: Budgets, s: State): int {
    match s.node
    case Investigate => 3 * (Cap(b) - s.turn)
    case Dispatch => 3 * (Cap(b) - s.turn) + 2
    case Normalize => 3 * (Cap(b) - s.turn) + 1
    case FinalAssessment => 3
    case Interrupt => 2
    case FinalReport => 1
    case Ended => 0
  }

  lemma StepDescends(setup: Setup, s: State, input: Input)
    requires Invariant(setup, s) && Fits(s, input)
    ensures 0 <= Rank(setup.budgets, Step(setup, s, input)) < Rank(setup.budgets, s)
  {
    StepKeepsInvariant(setup, s, input);
  }

  lemma {:induction false} PlaysAreBounded(setup: Setup, s: State, inputs: seq<Input>)
    requires Invariant(setup, s) && Playable(setup, s, inputs)
    ensures |inputs| <= Rank(setup.budgets, s) && Invariant(setup, Play(setup, s, inputs))
    decreases |inputs|
  {
    hide Invariant, Step, Fits;
    if inputs == [] {
      RankIsNatural(setup, s);
    } else {
      StepKeepsInvariant(setup, s, inputs[0]);
      StepDescends(setup, s, inputs[0]);
      PlaysAreBounded(setup, Step(setup, s, inputs[0]), inputs[1..]);
    }
  }

  lemma StartsWithinBudgets(b: Budgets)
    ensures WithinBudgets(b, Counters(0, 0, 0)) && Charged(Counters(0, 0, 0)) == 0
  {
  }

  lemma InvariantAtStart(setup: Setup)
    ensures Invariant(setup, Start(setup)) && Rank(setup.budgets, Start(setup)) <= 3 * Cap(setup.budgets)
  {
    hide WithinBudgets, Charged, EscalationReasonOf, CitesOnly, ToolsLeft, SlotsSpent;
    StartsWithinBudgets(setup.budgets);
    var s := Start(setup);
    assert Untouched(s) && s.failure.None? && s.counters == Counters(0, 0, 0) && s.turn == 0;
  }

  lemma RankIsNatural(setup: Setup, s: State)
    requires Invariant(setup, s)
    ensures 0 <= Rank(setup.budgets, s)
  {
  }

  /** Whatever model, tools, clock and owner do: the graph stops within three node executions per
      model call (of which two are taken to be there at least), it never overdraws a budget, and an
      assessment is attempted with a call in hand exactly when there were two calls to begin with. */
  lemma EveryPlayTerminatesWithinBudget(setup: Setup, inputs: seq<Input>)
    requires Playable(setup, Start(setup), inputs)
    ensures var b, s := setup.budgets, Play(setup, Start(setup), inputs);
            && |inputs| <= 3 * Cap(b)
            && s.counters.repairs <= b.repairs
            && Charged(s.counters) <= (if b.modelCalls > 0 then b.modelCalls else 0)
            && (s.node == FinalAssessment && !setup.noTools ==> (CallsLeft(s.counters, b) >= 1 <==> b.modelCalls >= 2))
            && (s.node == FinalAssessment && setup.noTools ==> (CallsLeft(s.counters, b) >= 1 <==> b.modelCalls >= 1))
  {
    hide Start, Play, Playable, EscalationReasonOf, CitesOnly;
    InvariantAtStart(setup);
    PlaysAreBounded(setup, Start(setup), inputs);
  }

  /** `resolve_budgets` gives each curve point two calls more than its checks; its longest play fits
      the recursion limit, and so does any with at most eight calls. */
  lemma CurveFitsTheRecursionLimit(setup: Setup, inputs: seq<Input>)
    requires Playable(setup, Start(setup), inputs) && setup.budgets.modelCalls <= 8
    ensures |inputs| <= RECURSION_LIMIT
    ensures setup.budgets.executedTools in {2, 3, 4} && setup.budgets.modelCalls == setup.budgets.executedTools + 2 ==> |inputs| <= 18
  {
    hide Invariant, Start, Play, Playable;
    InvariantAtStart(setup);
    PlaysAreBounded(setup, Start(setup), inputs);
  }

  function Turns(inputs: seq<Input>): nat {
    if inputs == [] then 0 else (if inputs[0].Investigating? then 1 else 0) + Turns(inputs[1..])
  }

  function TurnsAhead(b: Budgets, s: State): int {
    match s.node
    case Investigate => Cap(b) - 1 - s.turn
    case Dispatch => Cap(b) - 1 - s.turn
    case Normalize => Cap(b) - 1 - s.turn
    case _ => 0
  }

  lemma {:induction false} TurnsAreBounded(setup: Setup, s: State, inputs: seq<Input>)
    requires Invariant(setup, s) && Playable(setup, s, inputs)
    ensures Turns(inputs) <= TurnsAhead(setup.budgets, s)
    decreases |inputs|
  {
    if inputs != [] {
      StepKeepsInvariant(setup, s, inputs[0]);
      TurnsAreBounded(setup, Step(setup, s, inputs[0]), inputs[1..]);
    }
  }

  /** One call is always kept for the assessment. */
  lemma OneCallIsKeptForTheAssessment(setup: Setup, inputs: seq<Input>)
    requires Playable(setup, Start(setup), inputs)
    ensures Turns(inputs) <= Cap(setup.budgets) - 1
  {
    InvariantAtStart(setup);
    assert TurnsAhead(setup.budgets, Start(setup)) <= Cap(setup.budgets) - 1;
    hide Invariant, Start, Play, Playable, TurnsAhead, Turns;
    TurnsAreBounded(setup, Start(setup), inputs);
  }

  // ---------------------------------------------------------------- the bound is reached

  const DENIED: Receipt := Receipt(DomainCheck, false, true, false)

  const PROPOSED: Turn<Option<Tool>> := Parsed(Some(DomainCheck))

  /** A turn whose one proposed check is denied, with or without a correction before it. */
  function DeniedRound(corrected: bool): seq<Input> {
    [Investigating(false, if corrected then Bad("?") else PROPOSED, PROPOSED), Dispatching(Ran(DENIED, None, 0)), Normalizing(false)]
  }

  function DeniedRounds(n: nat): seq<Input> {
    if n == 0 then Ending() else DeniedRound(false) + DeniedRounds(n - 1)
  }

  function Ending(): seq<Input> {
    [Assessing(false, Parsed(Assessment(false, Undetermined, [], [])), Raised),
     Resuming([Mapping(Some(Accept), NoNote)]),
     Reporting(0.0)]
  }

  /** After `t` denied turns and `r` corrections. */
  predicate AfterDenials(setup: Setup, s: State, t: nat, r: nat, node: Node) {
    && s.node == node && s.turn == t && s.counters.calls == t + r && s.counters.repairs == r && s.failure.None?
    && s.passages == 0 && (forall receipt | receipt in s.receipts :: receipt == DENIED) && SlotsSpent(s.receipts) == 0
  }

  /** What one denied round asks, and where it leads. */
  lemma DeniedRoundPlays(setup: Setup, s: State, t: nat, r: nat, corrected: bool)
    requires setup.budgets.modelCalls >= 2 && setup.budgets.executedTools > 0
    requires AfterDenials(setup, s, t, r, Investigate) && t <= setup.budgets.modelCalls - 2
    requires corrected ==> r < setup.budgets.repairs
    ensures Playable(setup, s, DeniedRound(corrected))
    ensures var s' := Play(setup, s, DeniedRound(corrected));
            && AfterDenials(setup, s', t + 1, if corrected then r + 1 else r,
                            if t + 1 <= setup.budgets.modelCalls - 2 then Investigate else FinalAssessment)
            && s'.asked == s.asked + Asks(setup, s, false, if corrected then Bad("?") else PROPOSED, PROPOSED)
            && s'.evidence == s.evidence && s'.report == s.report
  {
    var s1 := Proposing(setup, s, t, r, corrected);
    var s2, s3 := Denying(setup, s1, t + 1, if corrected then r + 1 else r);
    hide Step, AfterDenials, Asks;
    ThreeSteps(setup, s, DeniedRound(corrected), s1, s2, s3);
  }

  lemma Proposing(setup: Setup, s: State, t: nat, r: nat, corrected: bool) returns (s1: State)
    requires setup.budgets.modelCalls >= 2
    requires AfterDenials(setup, s, t, r, Investigate) && t <= setup.budgets.modelCalls - 2
    requires corrected ==> r < setup.budgets.repairs
    ensures s1 == Step(setup, s, DeniedRound(corrected)[0]) && Fits(s, DeniedRound(corrected)[0])
    ensures AfterDenials(setup, s1, t + 1, if corrected then r + 1 else r, Dispatch)
    ensures s1.asked == s.asked + Asks(setup, s, false, if corrected then Bad("?") else PROPOSED, PROPOSED)
    ensures s1.evidence == s.evidence && s1.report == s.report
  {
    hide Asks, SlotsSpent;
    s1 := Step(setup, s, DeniedRound(corrected)[0]);
  }

  lemma Denying(setup: Setup, s1: State, t: nat, r: nat) returns (s2: State, s3: State)
    requires setup.budgets.executedTools > 0 && t <= setup.budgets.modelCalls - 1
    requires AfterDenials(setup, s1, t, r, Dispatch)
    ensures s2 == Step(setup, s1, Dispatching(Ran(DENIED, None, 0))) && s3 == Step(setup, s2, Normalizing(false))
    ensures Fits(s1, Dispatching(Ran(DENIED, None, 0))) && Fits(s2, Normalizing(false))
    ensures AfterDenials(setup, s3, t, r, if t <= setup.budgets.modelCalls - 2 then Investigate else FinalAssessment)
    ensures s3.asked == s1.asked && s3.evidence == s1.evidence && s3.report == s1.report
  {
    s2 := Step(setup, s1, Dispatching(Ran(DENIED, None, 0)));
    assert s2.receipts[..|s2.receipts| - 1] == s1.receipts;
    assert SlotsSpent(s2.receipts) == 0;
    s3 := Step(setup, s2, Normalizing(false));
  }

  lemma ThreeSteps(setup: Setup, s: State, inputs: seq<Input>, s1: State, s2: State, s3: State)
    requires |inputs| == 3 && Fits(s, inputs[0]) && Fits(s1, inputs[1]) && Fits(s2, inputs[2])
    requires s1 == Step(setup, s, inputs[0]) && s2 == Step(setup, s1, inputs[1]) && s3 == Step(setup, s2, inputs[2])
    ensures Playable(setup, s, inputs) && Play(setup, s, inputs) == s3
  {
    hide Step, Fits;
    assert inputs[1..][0] == inputs[1] && inputs[1..][1..][0] == inputs[2] && inputs[1..][1..][1..] == [];
    assert Playable(setup, s3, []) && Play(setup, s3, []) == s3;
    assert Playable(setup, s2, inputs[1..][1..]) && Play(setup, s2, inputs[1..][1..]) == s3;
    assert Playable(setup, s1, inputs[1..]) && Play(setup, s1, inputs[1..]) == s3;
  }

  lemma EndingPlays(setup: Setup, s: State, t: nat)
    requires setup.budgets.modelCalls > t && setup.budgets.executedTools > 0 && !setup.suppressEscalation
    requires AfterDenials(setup, s, t, 0, FinalAssessment)
    ensures Playable(setup, s, Ending()) && Play(setup, s, Ending()).node == Ended
  {
    var end := Ending();
    var s1 := Step(setup, s, end[0]);
    assert s1.node == Interrupt;
    assert FirstValid([Mapping(Some(Accept), NoNote)]) == Some(OwnerDecision(Accept, None));
    var s2 := Step(setup, s1, end[1]);
    assert s2.node == FinalReport;
    var s3 := Step(setup, s2, end[2]);
    hide Step;
    ThreeSteps(setup, s, end, s1, s2, s3);
  }

  lemma {:induction false} PlayingOn(setup: Setup, s: State, before: seq<Input>, after: seq<Input>)
    ensures Play(setup, s, before + after) == Play(setup, Play(setup, s, before), after)
    ensures Playable(setup, s, before + after) <==> Playable(setup, s, before) && Playable(setup, Play(setup, s, before), after)
    decreases |before|
  {
    if before == [] {
      assert before + after == after;
    } else {
      assert (before + after)[0] == before[0] && (before + after)[1..] == before[1..] + after;
      PlayingOn(setup, Step(setup, s, before[0]), before[1..], after);
    }
  }

  lemma RoundLengths()
    ensures |DeniedRound(false)| == 3 && |Ending()| == 3
  {
  }

  lemma {:induction false} DeniedRoundsPlay(setup: Setup, s: State, t: nat, n: nat)
    requires setup.budgets.modelCalls >= 2 && setup.budgets.executedTools > 0 && !setup.suppressEscalation
    requires n == setup.budgets.modelCalls - 1 - t && AfterDenials(setup, s, t, 0, if n > 0 then Investigate else FinalAssessment)
    ensures Playable(setup, s, DeniedRounds(n)) && Play(setup, s, DeniedRounds(n)).node == Ended
    ensures |DeniedRounds(n)| == 3 * n + 3
    decreases n
  {
    hide Step, Play, Playable, DeniedRound, Ending;
    assert |DeniedRound(false)| == 3 && |Ending()| == 3 by { RoundLengths(); }
    if n == 0 {
      EndingPlays(setup, s, t);
    } else {
      DeniedRoundPlays(setup, s, t, 0, false);
      DeniedRoundsPlay(setup, Play(setup, s, DeniedRound(false)), t + 1, n - 1);
      PlayingOn(setup, s, DeniedRound(false), DeniedRounds(n - 1));
    }
  }

  /** The bound of three executions per call is reached: a model whose every proposal is denied, and
      that then abstains with checks left, plays for exactly that long. With the default four calls
      that is twelve, not nine. */
  lemma TheBoundIsReached(setup: Setup) returns (inputs: seq<Input>)
    requires setup.budgets.modelCalls >= 2 && setup.budgets.executedTools > 0 && !setup.suppressEscalation && !setup.noTools
    ensures Playable(setup, Start(setup), inputs) && Play(setup, Start(setup), inputs).node == Ended
    ensures |inputs| == 3 * setup.budgets.modelCalls
  {
    inputs := DeniedRounds(setup.budgets.modelCalls - 1);
    DeniedRoundsPlay(setup, Start(setup), 0, setup.budgets.modelCalls - 1);
  }

  // ---------------------------------------------------------------- the report

  /** A report can be built exactly when the clock did not run backwards by a millisecond or more
      and the accepted resume value carries no over-long note. */
  lemma ReportExactlyWhen(setup: Setup, s: State, elapsed: real)
    requires Invariant(setup, s) && s.node == FinalReport
    ensures BuildReport(s, elapsed, None).Some? <==>
              elapsed * 1000.0 > -1.0 && (s.escalation.Some? ==> EscalationRecordAccepts(s.escalation.value.decision))
  {
    MillisecondsAreNatural(elapsed);
  }

  lemma MillisecondsAreNatural(elapsed: real)
    ensures Milliseconds(elapsed) >= 0 <==> elapsed * 1000.0 > -1.0
  {
  }

  /** A report was built from the very state that carries it. */
  ghost predicate Reported(setup: Setup, s: State) {
    && Invariant(setup, s)
    && setup.evidence <= s.evidence
    && (setup.noTools ==> s.evidence == setup.evidence)
    && (s.report.Some? ==> s.node == Ended && exists elapsed: real :: s.report == BuildReport(s, elapsed, None))
  }

  lemma StepKeepsReported(setup: Setup, s: State, input: Input)
    requires Reported(setup, s) && Fits(s, input)
    ensures Reported(setup, Step(setup, s, input))
  {
    StepKeepsInvariant(setup, s, input);
    if input.Reporting? {
      var s' := Step(setup, s, input);
      assert BuildReport(s', input.elapsed, None) == BuildReport(s, input.elapsed, None);
    } else {
      assert s.report.None?;
      hide Invariant;
    }
  }

  lemma {:induction false} ReportedInvariant(setup: Setup, s: State, inputs: seq<Input>)
    requires Reported(setup, s) && Playable(setup, s, inputs)
    ensures Reported(setup, Play(setup, s, inputs))
    decreases |inputs|
  {
    hide Reported, Step, Fits;
    if inputs != [] {
      StepKeepsReported(setup, s, inputs[0]);
      ReportedInvariant(setup, Step(setup, s, inputs[0]), inputs[1..]);
    }
  }

  /** What a report says of the state it was built from. */
  predicate Truthful(b: Budgets, s: State, r: Report) {
    && Accepts(r)
    && r.evidence == s.evidence
    && (r.assessment.Some? ==> forall id | id in r.assessment.value.supporting + r.assessment.value.contrary :: id in r.evidence)
    && (r.disposition == FailedSafe <==> r.assessment.None?)
    && (r.assessment.None? ==> r.reason == s.failure && s.failure.Some? && r.escalation.None?)
    && (r.escalation.Some? ==>
          r.assessment.Some?
          && Some(r.escalation.value.reason) == EscalationReasonOf(s.receipts, r.assessment.value, b, s.passages) == s.routed)
    && r.calls - r.repairs <= (if b.modelCalls > 0 then b.modelCalls else 0)
    && r.repairs <= b.repairs
  }

  lemma BuiltIsTruthful(setup: Setup, s: State, elapsed: real)
    requires Invariant(setup, s) && s.node == Ended && BuildReport(s, elapsed, None).Some?
    ensures Truthful(setup.budgets, s, BuildReport(s, elapsed, None).value)
  {
    hide EscalationReasonOf, Milliseconds;
  }

  /** What a built report says is true of the run: its assessment cites only evidence it lists, it is
      failed-safe exactly when there is no assessment, and an owner was asked only about an assessment,
      for the reason the router saw. The evidence begins with the incident's own records, and without
      tools there is no other. */
  lemma ReportsAreTruthful(setup: Setup, inputs: seq<Input>)
    requires Playable(setup, Start(setup), inputs)
    requires Play(setup, Start(setup), inputs).report.Some?
    ensures var s := Play(setup, Start(setup), inputs);
            && Truthful(setup.budgets, s, s.report.value)
            && setup.evidence <= s.report.value.evidence
            && (setup.noTools ==> s.report.value.evidence == setup.evidence)
  {
    InvariantAtStart(setup);
    assert Reported(setup, Start(setup)) by { hide Invariant; }
    hide Invariant, Start, Play, Playable, Truthful, BuildReport;
    ReportedInvariant(setup, Start(setup), inputs);
    var s := Play(setup, Start(setup), inputs);
    var elapsed: real :| s.report == BuildReport(s, elapsed, None);
    BuiltIsTruthful(setup, s, elapsed);
  }

  /** A decision that passed the owner's boundary settles the interrupt at the first ask, and the
      report takes it. */
  lemma ValidDecisionsSettleTheInterrupt(setup: Setup, s: State, d: OwnerDecision, elapsed: real)
    requires Invariant(setup, s) && s.node == Interrupt && d.Valid() && elapsed >= 0.0
    ensures Fits(s, Resuming([ResumeValueOf(d)]))
    ensures var s' := Step(setup, s, Resuming([ResumeValueOf(d)]));
            && s'.node == FinalReport
            && BuildReport(s', elapsed, None).Some?
            && BuildReport(s', elapsed, None).value.escalation == Some(Escalation(s.routed.value, d))
  {
    DecisionRoundTrips(d);
    StepKeepsInvariant(setup, s, Resuming([ResumeValueOf(d)]));
    ReportExactlyWhen(setup, Step(setup, s, Resuming([ResumeValueOf(d)])), elapsed);
  }

  /** A crash report never diagnoses, whatever had been concluded. */
  lemma CrashReportsFailSafe(s: State, elapsed: real)
    ensures var r := BuildReport(s, elapsed, Some(InternalError));
            && (r.Some? ==> r.value.disposition == FailedSafe && r.value.assessment.None? && r.value.reason == Some(InternalError))
            && (r.Some? <==> elapsed * 1000.0 > -1.0 && (s.escalation.Some? ==> EscalationRecordAccepts(s.escalation.value.decision)))
  {
    MillisecondsAreNatural(elapsed);
  }

  // ---------------------------------------------------------------- every call asks something new

  /** Invalid answers come with an account of what was wrong. */
  predicate Explained(input: Input) {
    match input
    case Investigating(_, plan, _) => plan.Bad? ==> plan.errors != ""
    case Assessing(_, answer, _) => answer.Bad? ==> answer.errors != ""
    case _ => true
  }

  predicate AskedBefore(setup: Setup, s: State, key: CostLedger.Key) {
    && key.runId == setup.runId
    && if key.phase == PhaseName(Investigate) then key.turn <= s.turn && (s.node == Investigate || s.node == Dispatch || s.node == Normalize ==> key.turn < s.turn)
       else key.phase == PhaseName(FinalAssessment) && (s.node == Interrupt || s.node == FinalReport || s.node == Ended)
  }

  ghost predicate NoneAskedTwice(asked: seq<Asked>) {
    forall i, j | 0 <= i < j < |asked| :: SendGate.KeyOf(asked[i].request) != SendGate.KeyOf(asked[j].request)
  }

  ghost predicate AllNew(setup: Setup, s: State) {
    && NoneAskedTwice(s.asked)
    && |s.asked| == s.counters.calls
    && forall i | 0 <= i < |s.asked| :: AskedBefore(setup, s, SendGate.KeyOf(s.asked[i].request))
  }

  lemma AsksAreNew<T>(setup: Setup, s: State, expired: bool, first: Turn<T>, second: Turn<T>)
    requires first.Bad? ==> first.errors != ""
    ensures var calls := Asks(setup, s, expired, first, second);
            && NoneAskedTwice(calls)
            && |calls| == Ask(s.counters, setup.budgets, expired, first, second).0.calls - s.counters.calls
            && forall i | 0 <= i < |calls| ::
                 var key := SendGate.KeyOf(calls[i].request);
                 key.runId == setup.runId && key.phase == PhaseName(s.node) && key.turn == s.turn
  {
    var b, c := setup.budgets, s.counters;
    if first.Bad? {
      assert CallsLeft(Called(c).(repairs := c.repairs + 1), b) == CallsLeft(c, b);
      SendGate.RepairKeyIsNewExactlyWithErrors(RequestAt(setup, s, c, None), first.errors);
    }
  }

  lemma AppendingNewCalls(asked: seq<Asked>, more: seq<Asked>)
    requires NoneAskedTwice(asked) && NoneAskedTwice(more)
    requires forall i, j | 0 <= i < |asked| && 0 <= j < |more| ::
               SendGate.KeyOf(asked[i].request) != SendGate.KeyOf(more[j].request)
    ensures NoneAskedTwice(asked + more)
  {
    hide SendGate.KeyOf;
    var all := asked + more;
    forall i, j | 0 <= i < j < |all| ensures SendGate.KeyOf(all[i].request) != SendGate.KeyOf(all[j].request) {
      if j < |asked| {
        assert all[i] == asked[i] && all[j] == asked[j];
      } else if |asked| <= i {
        assert all[i] == more[i - |asked|] && all[j] == more[j - |asked|];
      } else {
        assert all[i] == asked[i] && all[j] == more[j - |asked|];
      }
    }
  }

  /** A stage that has not asked yet only adds new keys. */
  lemma StageAsksNew<T>(setup: Setup, s: State, s': State, expired: bool, first: Turn<T>, second: Turn<T>)
    requires AllNew(setup, s) && (first.Bad? ==> first.errors != "")
    requires s.node == Investigate || s.node == FinalAssessment
    requires s'.asked == s.asked + Asks(setup, s, expired, first, second)
    requires s'.counters == Ask(s.counters, setup.budgets, expired, first, second).0
    requires s.node == Investigate ==>
               (s'.node == Dispatch && s'.turn == s.turn + 1) || (s'.turn >= s.turn && (s'.node == FinalAssessment || s'.node == FinalReport))
    requires s.node == FinalAssessment ==> s'.turn == s.turn && (s'.node == Interrupt || s'.node == FinalReport)
    ensures AllNew(setup, s')
  {
    AsksAreNew(setup, s, expired, first, second);
    var more := Asks(setup, s, expired, first, second);
    hide Asks, NoneAskedTwice, Ask, SendGate.KeyOf;
    forall i | 0 <= i < |more| ensures AskedBefore(setup, s', SendGate.KeyOf(more[i].request)) {}
    forall i | 0 <= i < |s.asked|
      ensures AskedBefore(setup, s', SendGate.KeyOf(s.asked[i].request))
      ensures forall j | 0 <= j < |more| :: SendGate.KeyOf(s.asked[i].request) != SendGate.KeyOf(more[j].request)
    {
      assert AskedBefore(setup, s, SendGate.KeyOf(s.asked[i].request));
    }
    AppendingNewCalls(s.asked, more);
    assert s'.asked == s.asked + more;
  }

  lemma StepAsksNew(setup: Setup, s: State, input: Input)
    requires Invariant(setup, s) && AllNew(setup, s) && Fits(s, input) && Explained(input)
    ensures AllNew(setup, Step(setup, s, input))
  {
    var s' := Step(setup, s, input);
    match input {
      case Investigating(expired, plan, replan) =>
        hide AllNew, Asks, Ask;
        StageAsksNew(setup, s, s', expired, plan, replan);
      case Assessing(expired, answer, correction) =>
        hide AllNew, Asks, Ask, Evidence.UnknownOf, EscalationReasonOf;
        StageAsksNew(setup, s, s', expired, answer, correction);
      case _ =>
        hide NoneAskedTwice, SendGate.KeyOf;
        forall i | 0 <= i < |s'.asked| ensures AskedBefore(setup, s', SendGate.KeyOf(s'.asked[i].request)) {
          assert AskedBefore(setup, s, SendGate.KeyOf(s.asked[i].request));
        }
    }
  }

  lemma {:induction false} PlayAsksNew(setup: Setup, s: State, inputs: seq<Input>)
    requires Invariant(setup, s) && AllNew(setup, s) && Playable(setup, s, inputs)
    requires forall input | input in inputs :: Explained(input)
    ensures AllNew(setup, Play(setup, s, inputs))
    decreases |inputs|
  {
    hide Invariant, AllNew, Step, Fits, Explained;
    if inputs != [] {
      StepKeepsInvariant(setup, s, inputs[0]);
      StepAsksNew(setup, s, inputs[0]);
      PlayAsksNew(setup, Step(setup, s, inputs[0]), inputs[1..]);
    }
  }

  /** In a run nothing interrupts, every model call has a key of its own; so, sent in that order to a
      ledger that does not know this run yet, none is refused as ambiguous. */
  lemma NoCallIsAmbiguous(setup: Setup, inputs: seq<Input>, books: SendGate.Books, attempts: seq<SendGate.Attempt>, i: nat)
    requires Playable(setup, Start(setup), inputs) && forall input | input in inputs :: Explained(input)
    requires SendGate.Accounted(books) && forall j | 0 <= j < |books.rows| :: books.rows[j].key.runId != setup.runId
    requires var asked := Play(setup, Start(setup), inputs).asked;
             |attempts| == |asked| && forall j | 0 <= j < |asked| :: SendGate.KeyOf(attempts[j].request) == SendGate.KeyOf(asked[j].request)
    requires i < |attempts|
    ensures SendGate.Send(SendGate.SendAll(books, attempts[..i]), attempts[i]).1 != SendGate.Ambiguous
  {
    PlayAsksNew(setup, Start(setup), inputs);
    var s := Play(setup, Start(setup), inputs);
    forall j | 0 <= j < |attempts| ensures !CostLedger.Recorded(books.rows, SendGate.KeyOf(attempts[j].request)) {
      assert AskedBefore(setup, s, SendGate.KeyOf(s.asked[j].request));
    }
    hide Play, Playable, SendGate.Send, SendGate.SendAll, SendGate.KeyOf, Start;
    SendGate.DistinctRequestsAreNeverAmbiguous(books, attempts, i);
  }
}

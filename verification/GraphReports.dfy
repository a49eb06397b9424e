/** What a run of the investigation graph tells: when an owner is asked, what a report says of the run
    it came from, and where each stage leads - in terms of receipts, answers and evidence. */
module GraphReports {
  import opened Wrappers
  import opened Text
  import opened Decisions
  import opened Graph
  import opened GraphTheorems
  import Evidence

  // ---------------------------------------------------------------- when an owner is asked

  /** The allowed domain checks: each spent a slot, finished or not. */
  function ChecksAllowed(receipts: seq<Receipt>): set<nat> {
    set i: nat | i < |receipts| && receipts[i].allowed && receipts[i].tool == DomainCheck
  }

  predicate CheckLeft(receipts: seq<Receipt>, b: Budgets) {
    |ChecksAllowed(receipts)| < b.executedTools
  }

  lemma {:induction false} SlotsAreAllowedChecks(receipts: seq<Receipt>)
    ensures SlotsSpent(receipts) == |ChecksAllowed(receipts)|
  {
    if receipts == [] {
      assert ChecksAllowed(receipts) == {};
    } else {
      var last := |receipts| - 1;
      SlotsAreAllowedChecks(receipts[..last]);
      var before := ChecksAllowed(receipts[..last]);
      if receipts[last].allowed && receipts[last].tool == DomainCheck {
        assert ChecksAllowed(receipts) == before + {last};
        assert last !in before;
      } else {
        assert ChecksAllowed(receipts) == before;
      }
    }
  }

  predicate SomethingUnavailable(receipts: seq<Receipt>) {
    exists i :: 0 <= i < |receipts| && receipts[i].unavailable
  }

  /** A runbook search finished, and nothing was retrieved. */
  predicate EmptyRetrieval(receipts: seq<Receipt>, passages: nat) {
    passages == 0 && exists i :: 0 <= i < |receipts| && receipts[i].tool == SearchRunbooks && receipts[i].allowed && receipts[i].settled
  }

  predicate GaveUpEarly(receipts: seq<Receipt>, a: Assessment, b: Budgets) {
    !a.diagnosed && CheckLeft(receipts, b)
  }

  /** Each published reason is a fact of the run, and the gravest one; without a reason there is none. */
  predicate Justified(reason: Option<EscalationReason>, receipts: seq<Receipt>, a: Assessment, b: Budgets, passages: nat) {
    match reason
    case Some(ToolUnavailable) => SomethingUnavailable(receipts)
    case Some(RetrievalCoverageInsufficient) => !SomethingUnavailable(receipts) && EmptyRetrieval(receipts, passages)
    case Some(InsufficientEvidenceWithCheckRemaining) =>
      !SomethingUnavailable(receipts) && !EmptyRetrieval(receipts, passages) && GaveUpEarly(receipts, a, b)
    case Some(ConflictingEvidence) =>
      !SomethingUnavailable(receipts) && !EmptyRetrieval(receipts, passages) && !GaveUpEarly(receipts, a, b) && a.contrary != []
    case None =>
      !SomethingUnavailable(receipts) && !EmptyRetrieval(receipts, passages) && !GaveUpEarly(receipts, a, b) && a.contrary == []
  }

  lemma ReasonsAreJustified(receipts: seq<Receipt>, a: Assessment, b: Budgets, passages: nat)
    ensures Justified(EscalationReasonOf(receipts, a, b, passages), receipts, a, b, passages)
  {
    SlotsAreAllowedChecks(receipts);
    forall r | r in receipts ensures exists i :: 0 <= i < |receipts| && receipts[i] == r {}
    hide SlotsSpent, ChecksAllowed;
  }

  /** Nobody is asked in a suppressed run; in any other, everybody is who must be. */
  ghost predicate RoutedRightly(setup: Setup, s: State) {
    && Invariant(setup, s)
    && (s.node == Interrupt ==> !setup.suppressEscalation)
    && (s.escalation.Some? ==> !setup.suppressEscalation)
    && ((s.node == FinalReport || s.node == Ended) && s.assessment.Some? && s.escalation.None? ==>
          setup.suppressEscalation || EscalationReasonOf(s.receipts, s.assessment.value, setup.budgets, s.passages).None?)
  }

  lemma ConcludingRoutesRightly(setup: Setup, s: State, verdict: Graph.Verdict<Assessment>)
    requires s.escalation.None?
    ensures var s' := Concluded(setup, s, verdict);
            && (s'.node == Interrupt ==> !setup.suppressEscalation) && s'.escalation.None?
            && ((s'.node == FinalReport || s'.node == Ended) && s'.assessment.Some? ==>
                  setup.suppressEscalation || EscalationReasonOf(s'.receipts, s'.assessment.value, setup.budgets, s'.passages).None?)
  {
    hide EscalationReasonOf, Evidence.UnknownOf;
  }

  lemma StepRoutesRightly(setup: Setup, s: State, input: Input)
    requires RoutedRightly(setup, s) && Fits(s, input)
    ensures RoutedRightly(setup, Step(setup, s, input))
  {
    StepKeepsInvariant(setup, s, input);
    hide EscalationReasonOf, BuildReport, Asks, Ask, Invariant;
    match input {
      case Assessing(expired, answer, correction) =>
        NoEscalationYet(setup, s);
        var (c, verdict) := Ask(s.counters, setup.budgets, expired, answer, correction);
        ConcludingRoutesRightly(setup, s.(counters := c, asked := s.asked + Asks(setup, s, expired, answer, correction)), verdict);
        hide Concluded;
      case Investigating(_, _, _) => NoEscalationYet(setup, s);
      case _ => NoEscalationYet(setup, s);
    }
  }

  lemma NoEscalationYet(setup: Setup, s: State)
    requires Invariant(setup, s)
    ensures s.node != FinalReport && s.node != Ended ==> s.escalation.None?
    ensures s.node == Investigate || s.node == Dispatch || s.node == Normalize || s.node == FinalAssessment ==> s.assessment.None?
  {
  }

  lemma {:induction false} PlayRoutesRightly(setup: Setup, s: State, inputs: seq<Input>)
    requires RoutedRightly(setup, s) && Playable(setup, s, inputs)
    ensures RoutedRightly(setup, Play(setup, s, inputs))
    decreases |inputs|
  {
    hide RoutedRightly, Step, Fits;
    if inputs != [] {
      StepRoutesRightly(setup, s, inputs[0]);
      PlayRoutesRightly(setup, Step(setup, s, inputs[0]), inputs[1..]);
    }
  }

  lemma RoutedReportsAreJustified(setup: Setup, s: State, r: Report)
    requires RoutedRightly(setup, s) && Truthful(setup.budgets, s, r)
    requires s.node == Ended && r.assessment == s.assessment && r.escalation == s.escalation
    ensures RightlyPublished(setup, s, r)
  {
    hide Invariant, EscalationReasonOf, Justified, Accepts;
    if r.assessment.Some? { ReasonsAreJustified(s.receipts, r.assessment.value, setup.budgets, s.passages); }
  }

  ghost predicate RightlyPublished(setup: Setup, s: State, r: Report) {
    && (setup.suppressEscalation ==> r.escalation.None?)
    && (!setup.suppressEscalation && r.assessment.Some? ==>
          Justified(if r.escalation.Some? then Some(r.escalation.value.reason) else None,
                    s.receipts, r.assessment.value, setup.budgets, s.passages))
  }

  /** Over every run that is not suppressed: a report with an assessment went by its owner exactly when a
      tool was unavailable, a finished retrieval found nothing, the model gave up with a check left, or
      it cited contrary evidence; and the reason it publishes is the first of these. */
  lemma OwnersAreAskedExactlyWhen(setup: Setup, inputs: seq<Input>)
    requires Playable(setup, Start(setup), inputs) && Play(setup, Start(setup), inputs).report.Some?
    ensures var s := Play(setup, Start(setup), inputs); RightlyPublished(setup, s, s.report.value)
  {
    hide *;
    ReportsAreTruthful(setup, inputs);
    InvariantAtStart(setup);
    StartRoutesRightly(setup);
    PlayRoutesRightly(setup, Start(setup), inputs);
    ReportedState(setup, inputs);
    var s := Play(setup, Start(setup), inputs);
    RoutedReportsAreJustified(setup, s, s.report.value);
  }

  lemma StartRoutesRightly(setup: Setup)
    requires Invariant(setup, Start(setup))
    ensures RoutedRightly(setup, Start(setup))
  {
    hide Invariant;
  }

  /** A report was made in the last state of its run. */
  lemma ReportedState(setup: Setup, inputs: seq<Input>)
    requires Playable(setup, Start(setup), inputs) && Play(setup, Start(setup), inputs).report.Some?
    ensures var s := Play(setup, Start(setup), inputs);
            s.node == Ended && s.report.value.assessment == s.assessment && s.report.value.escalation == s.escalation
  {
    InvariantAtStart(setup);
    assert Reported(setup, Start(setup)) by { hide Invariant; }
    hide Invariant, Start, Play, Playable, Accepts, Milliseconds;
    ReportedInvariant(setup, Start(setup), inputs);
  }

  // ---------------------------------------------------------------- what a report says

  /** The answer a stage ends up with: the first, or its one correction while repairs last. */
  function AnswerOf<T>(c: Counters, b: Budgets, expired: bool, first: Turn<T>, second: Turn<T>): Option<T> {
    if expired || CallsLeft(c, b) <= 0 then None
    else if first.Parsed? then Some(first.value)
    else if first.Bad? && c.repairs < b.repairs && second.Parsed? then Some(second.value)
    else None
  }

  /** Why a stage has no answer. */
  predicate Excuses<T>(v: Graph.Verdict<T>, c: Counters, b: Budgets, expired: bool, first: Turn<T>, second: Turn<T>) {
    var asked := !expired && CallsLeft(c, b) > 0;
    var corrected := asked && first.Bad? && c.repairs < b.repairs;
    && (v == Stopped(WallClockExpired) <== expired)
    && (v == Stopped(ModelCallBudgetExhausted) <== !expired && !asked)
    && (v == Stopped(RepairExhausted) <== asked && first.Bad? && !corrected)
    && (v == Stopped(ModelOutputInvalid) <== corrected && second.Bad?)
    && (asked && first.MoneyRefused? ==> v == Stopped(first.reason))
    && (corrected && second.MoneyRefused? ==> v == Stopped(second.reason))
    && (v.Crashed? <==> (asked && first.Raised?) || (corrected && second.Raised?))
  }

  /** Asking yields the answer if there is one and otherwise says why not; every call and every invalid
      answer is counted. */
  lemma AskingYieldsTheAnswer<T>(c: Counters, b: Budgets, expired: bool, first: Turn<T>, second: Turn<T>)
    ensures var (c', v) := Ask(c, b, expired, first, second);
            var asked := !expired && CallsLeft(c, b) > 0;
            var corrected := asked && first.Bad? && c.repairs < b.repairs;
            && (v.Got? <==> AnswerOf(c, b, expired, first, second).Some?)
            && (v.Got? ==> AnswerOf(c, b, expired, first, second) == Some(v.value))
            && (!v.Got? ==> Excuses(v, c, b, expired, first, second))
            && c'.calls == c.calls + (if corrected then 2 else if asked then 1 else 0)
            && c'.repairs == c.repairs + (if corrected then 1 else 0)
            && c'.invalid == c.invalid + (if asked && first.Bad? then 1 else 0) + (if corrected && second.Bad? then 1 else 0)
  {
  }

  /** An assessment is kept exactly when it was answered and cites only what was retrieved; a citation
      from elsewhere fails the run as a forgery, anything else for its own reason. */
  lemma AssessmentsAreKept(setup: Setup, s: State, expired: bool, first: Turn<Assessment>, second: Turn<Assessment>)
    requires s.node == FinalAssessment
    ensures var s' := Step(setup, s, Assessing(expired, first, second));
            var a := AnswerOf(s.counters, setup.budgets, expired, first, second);
            && s'.receipts == s.receipts && s'.evidence == s.evidence && s'.passages == s.passages
            && (a.Some? && CitesOnly(a.value, s.evidence) ==> s'.assessment == a && s'.failure.None?)
            && (a.Some? && !CitesOnly(a.value, s.evidence) ==> s'.assessment.None? && s'.failure == Some(ForgedEvidenceReference))
            && (a.None? ==> s'.assessment.None? && s'.failure.Some?
                            && var v: Graph.Verdict<Assessment> := Ask(s.counters, setup.budgets, expired, first, second).1;
                               s'.failure == Some(if v.Stopped? then v.reason else InternalError))
  {
    AskingYieldsTheAnswer(s.counters, setup.budgets, expired, first, second);
    var v := Ask(s.counters, setup.budgets, expired, first, second).1;
    if v.Got? {
      Evidence.UnknownAreTheUncited(v.value.supporting + v.value.contrary, s.evidence);
    }
    hide Ask, AnswerOf, EscalationReasonOf, Asks, Excuses, Evidence.UnknownOf;
  }

  /** Where a turn leads: to the check it proposes; without one, or after any stop but the first turn's,
      to the assessment with what evidence there is; a crash, or a stop in the first turn, ends the run. */
  lemma TurnsLeadOn(setup: Setup, s: State, expired: bool, first: Turn<Option<Tool>>, second: Turn<Option<Tool>>)
    requires s.node == Investigate
    ensures var s' := Step(setup, s, Investigating(expired, first, second));
            var a := AnswerOf(s.counters, setup.budgets, expired, first, second);
            var v := Ask(s.counters, setup.budgets, expired, first, second).1;
            && s'.receipts == s.receipts && s'.evidence == s.evidence && s'.passages == s.passages
            && (a.Some? ==> s'.turn == s.turn + 1 && s'.failure.None? && s'.pending == a.value
                            && s'.node == (if a.value.Some? then Dispatch else FinalAssessment))
            && (a.None? ==> s'.turn == s.turn && s'.pending.None?)
            && (v.Crashed? ==> s'.node == FinalReport && s'.failure == Some(InternalError))
            && (v.Stopped? && s.turn == 0 ==> s'.node == FinalReport && s'.failure == Some(v.reason))
            && (v.Stopped? && s.turn > 0 ==> s'.node == FinalAssessment && s'.failure.None?)
  {
    AskingYieldsTheAnswer(s.counters, setup.budgets, expired, first, second);
    hide Ask, AnswerOf, Asks, Excuses;
  }

  /** What a check brings back: its receipt, and whatever was retrieved even if the backend crashed, which
      ends the run. */
  lemma ChecksAreRecorded(setup: Setup, s: State, result: Dispatched)
    requires s.node == Dispatch
    ensures var s' := Step(setup, s, Dispatching(result));
            && s'.node == Normalize && s'.pending.None? && s'.turn == s.turn && s'.counters == s.counters
            && s.receipts <= s'.receipts && s.evidence <= s'.evidence && s.passages <= s'.passages
            && match result
               case Ran(receipt, evidence, passages) =>
                 && s'.receipts == s.receipts + [receipt] && s'.passages == s.passages + passages && s'.failure == s.failure
                 && s'.evidence == (if evidence.Some? then s.evidence + [evidence.value] else s.evidence)
               case BackendCrashed(kept, recovered) =>
                 && s'.receipts == s.receipts + kept && s'.evidence == s.evidence + recovered && s'.passages == s.passages
                 && s'.failure == Some(InternalError)
  {
  }

  /** Another turn is taken exactly when nothing failed, a check is left, two calls are, time is, and the
      turns have not reached the calls. */
  lemma AnotherTurnExactlyWhen(setup: Setup, s: State, expired: bool)
    requires s.node == Normalize
    ensures var s', b := Step(setup, s, Normalizing(expired)), setup.budgets;
            && (s'.node == FinalReport <==> s.failure.Some?)
            && (s'.node == Investigate <==>
                  s.failure.None? && CheckLeft(s.receipts, b) && b.modelCalls - (s.counters.calls - s.counters.repairs) >= 2
                  && !expired && s.turn < b.modelCalls)
            && (s'.node == FinalReport || s'.node == Investigate || s'.node == FinalAssessment)
            && s' == s.(node := s'.node)
  {
    SlotsAreAllowedChecks(s.receipts);
    hide ChecksAllowed, SlotsSpent;
  }

  /** What a built report says of its state, field by field. */
  lemma ReportsSayWhatHappened(s: State, elapsed: real)
    requires BuildReport(s, elapsed, None).Some?
    ensures var r := BuildReport(s, elapsed, None).value;
            && r.assessment == s.assessment && r.evidence == s.evidence && r.escalation == s.escalation
            && r.calls == s.counters.calls && r.repairs == s.counters.repairs
            && (s.assessment.Some? ==> r.cause == s.assessment.value.cause && r.reason.None?
                                       && r.disposition == (if s.assessment.value.diagnosed then Diagnosed else InsufficientEvidence))
            && (s.assessment.None? ==> r.cause == Undetermined && r.disposition == FailedSafe
                                       && r.reason == (if s.failure.Some? then s.failure else Some(InternalError)))
            && r.latencyMs >= 0
            && (elapsed >= 0.0 ==> r.latencyMs as real <= elapsed * 1000.0 < r.latencyMs as real + 1.0)
            && (elapsed < 0.0 ==> r.latencyMs == 0)
  {
    MillisecondsTruncate(elapsed);
    hide Milliseconds;
  }

  lemma MillisecondsTruncate(elapsed: real)
    ensures var ms := Milliseconds(elapsed);
            && (elapsed >= 0.0 ==> 0 <= ms && ms as real <= elapsed * 1000.0 < ms as real + 1.0)
            && (elapsed < 0.0 ==> ms <= 0 && ms as real >= elapsed * 1000.0 > ms as real - 1.0)
  {
    var x := elapsed * 1000.0;
    assert elapsed >= 0.0 <==> x >= 0.0;
  }

  /** A stage's calls, as they are sent: under its run, its own name and turn, with the context rendered
      for what it knows and has left; a second one corrects the first, quoting what was wrong with it. */
  ghost predicate AsksAs(setup: Setup, s: State, calls: seq<Asked>, phase: string, complaint: Option<string>) {
    && |calls| <= 2
    && (|calls| == 2 ==> complaint.Some?)
    && forall i | 0 <= i < |calls| ::
         var r := calls[i].request;
         && r.runId == setup.runId && r.phase == phase && r.turn == s.turn && r.system == setup.system
         && r.context == setup.text(Shown(s.node, s.turn, setup.budgets.modelCalls - (s.counters.calls - s.counters.repairs),
                                          s.receipts, s.evidence, s.passages))
         && r.errors == if i == 0 then None else complaint
  }

  lemma AStagesCalls<T>(setup: Setup, s: State, phase: string, expired: bool, first: Turn<T>, second: Turn<T>)
    requires phase == if s.node == Investigate then "INVESTIGATE" else "FINAL_ASSESSMENT"
    ensures AsksAs(setup, s, Asks(setup, s, expired, first, second), phase, if first.Bad? then Some(first.errors) else None)
  {
  }

  lemma StagesAskForThemselves(setup: Setup, s: State, input: Input)
    requires Fits(s, input)
    ensures var s' := Step(setup, s, input);
            && s.asked <= s'.asked
            && var calls := s'.asked[|s.asked|..];
               match input
               case Investigating(_, plan, _) =>
                 AsksAs(setup, s, calls, "INVESTIGATE", if plan.Bad? then Some(plan.errors) else None)
               case Assessing(_, answer, _) =>
                 AsksAs(setup, s, calls, "FINAL_ASSESSMENT", if answer.Bad? then Some(answer.errors) else None)
               case _ => calls == []
  {
    hide EscalationReasonOf, Evidence.UnknownOf, BuildReport, FirstValid, Asks, AsksAs, Ask;
    var calls := Step(setup, s, input).asked[|s.asked|..];
    match input
    case Investigating(expired, first, second) =>
      assert calls == Asks(setup, s, expired, first, second);
      AStagesCalls(setup, s, "INVESTIGATE", expired, first, second);
    case Assessing(expired, first, second) =>
      assert calls == Asks(setup, s, expired, first, second);
      AStagesCalls(setup, s, "FINAL_ASSESSMENT", expired, first, second);
    case _ =>
  }

  /** The interrupt settles on the first value it can parse, and pauses again as long as there is none. */
  lemma {:induction false} TheFirstValidValueCounts(values: seq<ResumeValue>)
    ensures FirstValid(values).None? <==> forall i | 0 <= i < |values| :: ParseResume(values[i]).None?
    ensures FirstValid(values).Some? ==>
              exists i :: 0 <= i < |values| && ParseResume(values[i]) == FirstValid(values)
                && forall j | 0 <= j < i :: ParseResume(values[j]).None?
  {
    hide ParseResume;
    if values != [] {
      var rest := values[1..];
      TheFirstValidValueCounts(rest);
      if ParseResume(values[0]).Some? {
        assert ParseResume(values[0]) == FirstValid(values);
      } else {
        assert forall i | 0 <= i < |rest| :: rest[i] == values[i + 1];
        if FirstValid(rest).Some? {
          var i :| 0 <= i < |rest| && ParseResume(rest[i]) == FirstValid(rest) && forall j | 0 <= j < i :: ParseResume(rest[j]).None?;
          forall j | 0 <= j < i + 1 ensures ParseResume(values[j]).None? {
            if j > 0 { assert ParseResume(rest[j - 1]).None?; }
          }
          assert ParseResume(values[i + 1]) == FirstValid(values);
        } else {
          forall i | 0 <= i < |values| ensures ParseResume(values[i]).None? {
            if i > 0 { assert ParseResume(rest[i - 1]).None?; }
          }
        }
      }
    }
  }

  // ---------------------------------------------------------------- over whole runs

  /** What one check brought back. */
  function RecordsOf(input: Input): seq<string> {
    match input
    case Dispatching(Ran(_, evidence, _)) => if evidence.Some? then [evidence.value] else []
    case Dispatching(BackendCrashed(_, recovered)) => recovered
    case _ => []
  }

  function ReceiptsOf(input: Input): seq<Receipt> {
    match input
    case Dispatching(Ran(receipt, _, _)) => [receipt]
    case Dispatching(BackendCrashed(kept, _)) => kept
    case _ => []
  }

  /** What all of them did, in order. */
  function Retrieved(inputs: seq<Input>): seq<string> {
    if inputs == [] then [] else RecordsOf(inputs[0]) + Retrieved(inputs[1..])
  }

  function Receipts(inputs: seq<Input>): seq<Receipt> {
    if inputs == [] then [] else ReceiptsOf(inputs[0]) + Receipts(inputs[1..])
  }

  /** Only a check adds to evidence and receipts. */
  lemma StepAddsWhatItBrought(setup: Setup, s: State, input: Input)
    requires Fits(s, input)
    ensures var s' := Step(setup, s, input);
            s'.evidence == s.evidence + RecordsOf(input) && s'.receipts == s.receipts + ReceiptsOf(input)
  {
    assert s.evidence + [] == s.evidence && s.receipts + [] == s.receipts;
    match input {
      case Investigating(expired, first, second) =>
        TurnsLeadOn(setup, s, expired, first, second);
        hide Step;
      case Assessing(expired, first, second) =>
        AssessmentsAreKept(setup, s, expired, first, second);
        hide Step;
      case Dispatching(result) =>
        ChecksAreRecorded(setup, s, result);
        hide Step;
      case Normalizing(expired) =>
        AnotherTurnExactlyWhen(setup, s, expired);
        hide Step;
      case _ => hide EscalationReasonOf, BuildReport, FirstValid;
    }
  }

  /** No receipt and no record is lost or invented: a run ends with the incident's own records followed by
      what its checks retrieved, in order, and with exactly their receipts. */
  lemma {:induction false} NothingRetrievedIsLost(setup: Setup, s: State, inputs: seq<Input>)
    requires Playable(setup, s, inputs)
    ensures var s' := Play(setup, s, inputs);
            s'.evidence == s.evidence + Retrieved(inputs) && s'.receipts == s.receipts + Receipts(inputs)
    decreases |inputs|
  {
    if inputs == [] {
      assert s.evidence + [] == s.evidence && s.receipts + [] == s.receipts;
    } else {
      hide Step, Fits, RecordsOf, ReceiptsOf;
      StepAddsWhatItBrought(setup, s, inputs[0]);
      NothingRetrievedIsLost(setup, Step(setup, s, inputs[0]), inputs[1..]);
      Regrouped(s.evidence, RecordsOf(inputs[0]), Retrieved(inputs[1..]));
      Regrouped(s.receipts, ReceiptsOf(inputs[0]), Receipts(inputs[1..]));
    }
  }

  lemma Regrouped<T>(a: seq<T>, b: seq<T>, c: seq<T>)
    ensures (a + b) + c == a + (b + c)
  {
  }
}

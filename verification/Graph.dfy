/** The investigation graph (`graph.py`): two additive budgets, a reserved final call, routing, the
    re-asking interrupt and the report, for every behaviour of model, tools, clock and owner. */
module Graph {
  import opened Wrappers
  import opened Text
  import opened Decisions
  import SendGate
  import CostLedger
  import Evidence

  datatype Budgets = Budgets(modelCalls: int, executedTools: int, repairs: nat)

  datatype Reason =
    | WallClockExpired
    | ModelCallBudgetExhausted
    | RepairExhausted
    | ModelOutputInvalid
    | CostCeilingExceeded
    | InputTokenCapExceeded
    | AmbiguousModelRequest
    | ForgedEvidenceReference
    | InternalError

  datatype Tool = SearchRunbooks | DomainCheck

  datatype Receipt = Receipt(tool: Tool, allowed: bool, settled: bool, unavailable: bool)

  datatype Cause = Undetermined | Named(code: string)

  datatype Assessment = Assessment(diagnosed: bool, cause: Cause, supporting: seq<string>, contrary: seq<string>) {
    /** `FinalAssessment.check_terminal_invariants`; parsing runs it. */
    predicate Valid() {
      if diagnosed then cause != Undetermined && supporting != [] else cause == Undetermined
    }
  }

  datatype EscalationReason =
    | ToolUnavailable
    | RetrievalCoverageInsufficient
    | InsufficientEvidenceWithCheckRemaining
    | ConflictingEvidence

  // ---------------------------------------------------------------- asking with one repair

  datatype Counters = Counters(calls: nat, repairs: nat, invalid: nat)

  /** What one model call comes back with: parsed, invalid with an account of what was wrong, refused
      before sending, or an exception. */
  datatype Turn<T> = Parsed(value: T) | Bad(errors: string) | MoneyRefused(reason: Reason) | Raised

  datatype Verdict<T> = Got(value: T) | Stopped(reason: Reason) | Crashed

  /** `_model_calls_left` */
  function CallsLeft(c: Counters, b: Budgets): int {
    b.modelCalls - (c.calls - c.repairs)
  }

  function Called(c: Counters): Counters {
    c.(calls := c.calls + 1)
  }

  /** `_ask_with_repair` around an `ask_once` that counts each call before making it. */
  function Ask<T>(c: Counters, b: Budgets, expired: bool, first: Turn<T>, second: Turn<T>): (Counters, Verdict<T>) {
    if expired then (c, Stopped(WallClockExpired))
    else if CallsLeft(c, b) <= 0 then (c, Stopped(ModelCallBudgetExhausted))
    else
      var once := Called(c);
      match first
      case Parsed(value) => (once, Got(value))
      case MoneyRefused(reason) => (once, Stopped(reason))
      case Raised => (once, Crashed)
      case Bad(_) =>
        var bad := once.(invalid := once.invalid + 1);
        if bad.repairs >= b.repairs then (bad, Stopped(RepairExhausted))
        else
          var twice := Called(bad.(repairs := bad.repairs + 1));
          match second
          case Parsed(value) => (twice, Got(value))
          case MoneyRefused(reason) => (twice, Stopped(reason))
          case Raised => (twice, Crashed)
          case Bad(_) => (twice.(invalid := twice.invalid + 1), Stopped(ModelOutputInvalid))
  }

  /** The call pool pays for at most one call here, the repair pool for at most one, and neither is
      overdrawn however the calls end; the repair is rendered with the same number of calls left. */
  lemma AskStaysWithinBudgets<T>(c: Counters, b: Budgets, expired: bool, first: Turn<T>, second: Turn<T>)
    requires c.repairs <= c.calls
    ensures var c' := Ask(c, b, expired, first, second).0;
            && c'.repairs <= c'.calls
            && c.repairs <= c'.repairs <= c.repairs + 1
            && (c.repairs <= b.repairs ==> c'.repairs <= b.repairs)
            && CallsLeft(c', b) <= CallsLeft(c, b) <= CallsLeft(c', b) + 1
            && (CallsLeft(c, b) >= 0 ==> CallsLeft(c', b) >= 0)
            && (Ask(c, b, expired, first, second).1.Got? ==> CallsLeft(c', b) == CallsLeft(c, b) - 1)
    ensures CallsLeft(Called(c).(repairs := c.repairs + 1), b) == CallsLeft(c, b)
  {
  }

  class StageCounters {
    var calls: nat
    var repairs: nat
    var invalid: nat

    function Now(): Counters
      reads this
    {
      Counters(calls, repairs, invalid)
    }

    constructor (c: Counters)
      ensures Now() == c
    {
      calls, repairs, invalid := c.calls, c.repairs, c.invalid;
    }

    /** `record_call`, which runs before the call it counts. */
    method RecordCall()
      modifies this
      ensures Now() == Called(old(Now()))
    {
      calls := calls + 1;
    }

    method AskWithRepair<T>(b: Budgets, expired: bool, first: Turn<T>, second: Turn<T>) returns (v: Verdict<T>)
      modifies this
      ensures (Now(), v) == Ask(old(Now()), b, expired, first, second)
    {
      if expired {
        return Stopped(WallClockExpired);
      }
      if CallsLeft(Now(), b) <= 0 {
        return Stopped(ModelCallBudgetExhausted);
      }
      RecordCall();
      match first {
        case Parsed(value) => return Got(value);
        case MoneyRefused(reason) => return Stopped(reason);
        case Raised => return Crashed;
        case Bad(_) =>
      }
      invalid := invalid + 1;
      if repairs >= b.repairs {
        return Stopped(RepairExhausted);
      }
      repairs := repairs + 1;
      RecordCall();
      match second {
        case Parsed(value) => return Got(value);
        case MoneyRefused(reason) => return Stopped(reason);
        case Raised => return Crashed;
        case Bad(_) =>
      }
      invalid := invalid + 1;
      return Stopped(ModelOutputInvalid);
    }
  }

  // ---------------------------------------------------------------- the state machine

  datatype Node = Investigate | Dispatch | Normalize | FinalAssessment | Interrupt | FinalReport | Ended

  datatype Disposition = Diagnosed | InsufficientEvidence | FailedSafe

  datatype Escalation = Escalation(reason: EscalationReason, decision: OwnerDecision)

  datatype Report = Report(
    disposition: Disposition,
    cause: Cause,
    assessment: Option<Assessment>,
    reason: Option<Reason>,
    latencyMs: int,
    calls: nat,
    repairs: nat,
    evidence: seq<string>,
    escalation: Option<Escalation>)

  /** What became of one model call, as far as its stage can tell. */
  datatype Reply = Usable | Unusable | Declined(reason: Reason) | Failed

  function ReplyOf<T>(turn: Turn<T>): Reply {
    match turn
    case Parsed(_) => Usable
    case Bad(_) => Unusable
    case MoneyRefused(reason) => Declined(reason)
    case Raised => Failed
  }

  /** One model call: what was asked, and how it ended. */
  datatype Asked = Asked(request: SendGate.Request, reply: Reply)

  datatype State = State(
    node: Node,
    turn: nat,
    counters: Counters,
    pending: Option<Tool>,
    receipts: seq<Receipt>,
    evidence: seq<string>,
    passages: nat,
    failure: Option<Reason>,
    assessment: Option<Assessment>,
    routed: Option<EscalationReason>,
    escalation: Option<Escalation>,
    asked: seq<Asked>,
    report: Option<Report>)

  /** Everything a stage's rendered context can depend on. */
  datatype Shown = Shown(
    node: Node, turn: nat, callsLeft: int, receipts: seq<Receipt>, evidence: seq<string>, passages: nat)

  /** The parts of one investigation that never change. `evidence`: the records the incident comes
      with. `text` is the rendering of a stage. */
  datatype Setup = Setup(
    runId: string, budgets: Budgets, suppressEscalation: bool, noTools: bool, evidence: seq<string>, system: string,
    text: Shown -> string)

  datatype Dispatched =
    | Ran(receipt: Receipt, evidence: Option<string>, passages: nat)
    | BackendCrashed(kept: seq<Receipt>, recovered: seq<string>)

  /** What the world contributes to one node. */
  datatype Input =
    | Investigating(expired: bool, plan: Turn<Option<Tool>>, replan: Turn<Option<Tool>>)
    | Dispatching(result: Dispatched)
    | Normalizing(expired: bool)
    | Assessing(expired: bool, answer: Turn<Assessment>, correction: Turn<Assessment>)
    | Resuming(values: seq<ResumeValue>)
    | Reporting(elapsed: real)

  predicate Fits(s: State, input: Input) {
    match input
    case Investigating(_, _, _) => s.node == Investigate
    case Dispatching(_) => s.node == Dispatch
    case Normalizing(_) => s.node == Normalize
    case Assessing(_, first, second) =>
      s.node == FinalAssessment
      && (first.Parsed? ==> first.value.Valid()) && (second.Parsed? ==> second.value.Valid())
    case Resuming(values) => s.node == Interrupt && FirstValid(values).Some?
    case Reporting(_) => s.node == FinalReport
  }

  /** `_tools_left`: a slot is spent by every allowed domain check, finished or not. */
  function SlotsSpent(receipts: seq<Receipt>): nat {
    if receipts == [] then 0
    else SlotsSpent(receipts[..|receipts| - 1])
         + if receipts[|receipts| - 1].allowed && receipts[|receipts| - 1].tool == DomainCheck then 1 else 0
  }

  function ToolsLeft(receipts: seq<Receipt>, b: Budgets): int {
    b.executedTools - SlotsSpent(receipts)
  }

  /** `_escalation_reason` */
  function EscalationReasonOf(receipts: seq<Receipt>, a: Assessment, b: Budgets, passages: nat): Option<EscalationReason> {
    if exists r :: r in receipts && r.unavailable then Some(ToolUnavailable)
    else if (exists r :: r in receipts && r.tool == SearchRunbooks && r.allowed && r.settled) && passages == 0 then
      Some(RetrievalCoverageInsufficient)
    else if !a.diagnosed && ToolsLeft(receipts, b) > 0 then Some(InsufficientEvidenceWithCheckRemaining)
    else if a.contrary != [] then Some(ConflictingEvidence)
    else None
  }

  function ShownAt(s: State, c: Counters, b: Budgets): Shown {
    Shown(s.node, s.turn, CallsLeft(c, b), s.receipts, s.evidence, s.passages)
  }

  function PhaseName(node: Node): string {
    if node == Investigate then "INVESTIGATE" else "FINAL_ASSESSMENT"
  }

  function RequestAt(setup: Setup, s: State, c: Counters, errors: Option<string>): SendGate.Request {
    SendGate.Request(setup.runId, PhaseName(s.node), s.turn, setup.system, setup.text(ShownAt(s, c, setup.budgets)), errors)
  }

  /** The calls a stage makes. */
  function Asks<T>(setup: Setup, s: State, expired: bool, first: Turn<T>, second: Turn<T>): seq<Asked> {
    var b, c := setup.budgets, s.counters;
    if expired || CallsLeft(c, b) <= 0 then []
    else
      var one := Asked(RequestAt(setup, s, c, None), ReplyOf(first));
      if first.Bad? && c.repairs < b.repairs then
        [one, Asked(RequestAt(setup, s, Called(c).(repairs := c.repairs + 1), Some(first.errors)), ReplyOf(second))]
      else [one]
  }

  /** The first resume value the interrupt accepts. */
  function FirstValid(values: seq<ResumeValue>): Option<OwnerDecision> {
    if values == [] then None
    else if ParseResume(values[0]).Some? then ParseResume(values[0])
    else FirstValid(values[1..])
  }

  /** `escalation_interrupt`: ask, and ask again until a value can be parsed. None: still paused. */
  method AwaitDecision(values: seq<ResumeValue>) returns (d: Option<OwnerDecision>)
    ensures d == FirstValid(values)
  {
    var i := 0;
    d := None;
    while i < |values| && d.None?
      invariant i <= |values|
      invariant d.None? ==> FirstValid(values) == FirstValid(values[i..])
      invariant d.Some? ==> d == FirstValid(values)
    {
      d := ParseResume(values[i]);
      i := i + 1;
    }
  }

  /** `int(seconds * 1000)` */
  function Milliseconds(elapsed: real): int {
    var ms := elapsed * 1000.0;
    if ms >= 0.0 then ms.Floor else -((-ms).Floor)
  }

  /** The validators of `InvestigationReport` and of the records inside it. */
  predicate Accepts(r: Report) {
    && r.latencyMs >= 0
    && (r.escalation.Some? ==> EscalationRecordAccepts(r.escalation.value.decision))
    && (r.assessment.Some? ==> r.assessment.value.Valid())
    && match r.disposition
       case Diagnosed => r.cause != Undetermined && r.assessment.Some?
       case InsufficientEvidence => r.cause == Undetermined && r.assessment.Some?
       case FailedSafe => r.cause == Undetermined && r.assessment.None? && r.reason.Some?
  }

  /** `_build_report`; None when a validator raises. `forced` is the containment of a crash. */
  function BuildReport(s: State, elapsed: real, forced: Option<Reason>): Option<Report> {
    var assessment := if forced.Some? then None else s.assessment;
    var r := Report(
      if assessment.None? then FailedSafe else if assessment.value.diagnosed then Diagnosed else InsufficientEvidence,
      if assessment.None? then Undetermined else assessment.value.cause,
      assessment,
      if assessment.Some? then None
      else if forced.Some? then forced
      else if s.failure.Some? then s.failure
      else Some(InternalError),
      Milliseconds(elapsed), s.counters.calls, s.counters.repairs, s.evidence, s.escalation);
    if Accepts(r) then Some(r) else None
  }

  function Start(setup: Setup): State {
    State(if setup.noTools then FinalAssessment else Investigate, 0, Counters(0, 0, 0), None, [], setup.evidence, 0, None, None,
          None, None, [], None)
  }

  /** `investigate` and the edge after it */
  function Investigated(setup: Setup, s: State, expired: bool, first: Turn<Option<Tool>>, second: Turn<Option<Tool>>): State {
    var (c, verdict) := Ask(s.counters, setup.budgets, expired, first, second);
    var s' := s.(counters := c, asked := s.asked + Asks(setup, s, expired, first, second));
    var done := match verdict
      case Got(proposal) => s'.(turn := s.turn + 1, pending := proposal, failure := None)
      case Stopped(reason) => s'.(pending := None, failure := if s.turn == 0 then Some(reason) else None)
      case Crashed => s'.(pending := None, failure := Some(InternalError));
    done.(node := if done.pending.Some? then Dispatch else if done.failure.Some? then FinalReport else FinalAssessment)
  }

  /** `dispatch_tool` */
  function DispatchedTo(s: State, result: Dispatched): State {
    var s' := s.(node := Normalize, pending := None);
    match result
    case Ran(receipt, evidence, passages) =>
      s'.(receipts := s.receipts + [receipt],
          evidence := if evidence.Some? then s.evidence + [evidence.value] else s.evidence,
          passages := s.passages + passages)
    case BackendCrashed(kept, recovered) =>
      s'.(receipts := s.receipts + kept, evidence := s.evidence + recovered, failure := Some(InternalError))
  }

  /** `route_after_normalize` */
  function Normalized(b: Budgets, s: State, expired: bool): State {
    s.(node :=
      if s.failure.Some? then FinalReport
      else if ToolsLeft(s.receipts, b) > 0 && CallsLeft(s.counters, b) >= 2 && !expired && s.turn < b.modelCalls then Investigate
      else FinalAssessment)
  }

  /** `final_assessment` and the edge after it */
  function Assessed(setup: Setup, s: State, expired: bool, first: Turn<Assessment>, second: Turn<Assessment>): State {
    var (c, verdict) := Ask(s.counters, setup.budgets, expired, first, second);
    Concluded(setup, s.(counters := c, asked := s.asked + Asks(setup, s, expired, first, second)), verdict)
  }

  function Concluded(setup: Setup, s: State, verdict: Verdict<Assessment>): State {
    match verdict
    case Stopped(reason) => s.(assessment := None, failure := Some(reason), node := FinalReport)
    case Crashed => s.(assessment := None, failure := Some(InternalError), node := FinalReport)
    case Got(a) =>
      if Evidence.UnknownOf(a.supporting + a.contrary, s.evidence) != [] then
        s.(assessment := None, failure := Some(ForgedEvidenceReference), node := FinalReport)
      else
        var kept := s.(assessment := Some(a), failure := None);
        var reason := EscalationReasonOf(s.receipts, a, setup.budgets, s.passages);
        if setup.suppressEscalation || reason.None? then kept.(node := FinalReport)
        else kept.(node := Interrupt, routed := reason)
  }

  /** `escalation_interrupt` recomputes why it was reached. */
  function Resumed(b: Budgets, s: State, values: seq<ResumeValue>): State {
    var decision := FirstValid(values);
    if s.assessment.None? || decision.None? then s
    else
      var reason := EscalationReasonOf(s.receipts, s.assessment.value, b, s.passages);
      if reason.None? then s
      else s.(node := FinalReport, escalation := Some(Escalation(reason.value, decision.value)))
  }

  function Step(setup: Setup, s: State, input: Input): State {
    match input
    case Investigating(expired, first, second) => Investigated(setup, s, expired, first, second)
    case Dispatching(result) => DispatchedTo(s, result)
    case Normalizing(expired) => Normalized(setup.budgets, s, expired)
    case Assessing(expired, first, second) => Assessed(setup, s, expired, first, second)
    case Resuming(values) => Resumed(setup.budgets, s, values)
    case Reporting(elapsed) => s.(node := Ended, report := BuildReport(s, elapsed, None))
  }

  ghost predicate Playable(setup: Setup, s: State, inputs: seq<Input>)
    decreases |inputs|
  {
    inputs != [] ==> Fits(s, inputs[0]) && Playable(setup, Step(setup, s, inputs[0]), inputs[1..])
  }

  function Play(setup: Setup, s: State, inputs: seq<Input>): State
    decreases |inputs|
  {
    if inputs == [] then s else Play(setup, Step(setup, s, inputs[0]), inputs[1..])
  }
}

/** The evaluation batch and its pre-flight cost check (`evaluate_cli.py`). */
module Preflight {
  import opened Wrappers
  import opened Text
  import opened CostLedger
  import opened SendGate
  import Graph
  import GraphTheorems

  const FAMILIES := 4
  const SEEDS := 3
  const ARMS := 2
  const INCIDENTS: nat := FAMILIES * SEEDS
  const RUNS: nat := INCIDENTS * ARMS

  /** The tool schemas of the two stages, in tokens. */
  const PROPOSE_TOKENS := 13716
  const RESPOND_TOKENS := 2422

  /** The larger of the two. */
  const TOOL_TOKENS := PROPOSE_TOKENS

  const SONNET := Pricing(2.0, 10.0)
  const HAIKU := Pricing(1.0, 5.0)
  const OPUS := Pricing(5.0, 25.0)

  /** `maximum_possible_reservation_usd` */
  function MaximumReservation(p: Pricing): Money {
    Worst(p, MAX_INPUT_TOKENS + TOOL_TOKENS)
  }

  /** The most calls a whole batch can make. */
  function BatchCalls(b: Graph.Budgets): int {
    RUNS * (b.modelCalls + b.repairs)
  }

  /** `calls` calls at one price */
  function Worth(calls: int, price: Money): Money {
    calls as real * price
  }

  lemma OneCallMore(calls: int, price: Money)
    ensures Worth(calls, price) == Worth(calls - 1, price) + price
  {
    assert calls as real == (calls - 1) as real + 1.0;
  }

  lemma MoreIsWorthMore(fewer: int, calls: int, price: Money, price': Money)
    requires 0.0 <= price <= price' && 0 <= fewer <= calls
    ensures 0.0 <= Worth(fewer, price) <= Worth(calls, price')
    ensures price < price' && fewer == calls > 0 ==> Worth(fewer, price) < Worth(calls, price')
  {
    var x, y := fewer as real, calls as real;
    assert 0.0 <= x * price <= y * price <= y * price';
  }

  /** `_check_preflight_cost`; `probe` is the pricing its constant was computed with. */
  predicate Passes(rows: seq<Row>, probe: Pricing, calls: int, ceiling: Money) {
    Spent(rows) + Worth(calls, MaximumReservation(probe)) + BUFFER <= ceiling
  }

  method CheckPreflightCost(ledger: CostLedger.Ledger, b: Graph.Budgets, probe: Pricing, ceiling: Money) returns (ok: bool)
    ensures ok <==> Passes(ledger.rows, probe, BatchCalls(b), ceiling)
  {
    var spent := ledger.Total();
    var worst := Worth(RUNS * (b.modelCalls + b.repairs), MaximumReservation(probe));
    ok := !(spent + worst + BUFFER > ceiling);
  }

  // ---------------------------------------------------------------- calls in a batch

  /** One graph play per run. */
  datatype Scored = Scored(setup: Graph.Setup, inputs: seq<Graph.Input>)

  ghost predicate Plays(run: Scored, b: Graph.Budgets) {
    run.setup.budgets == b && Graph.Playable(run.setup, Graph.Start(run.setup), run.inputs)
  }

  function CallsOf(run: Scored): nat {
    Graph.Play(run.setup, Graph.Start(run.setup), run.inputs).counters.calls
  }

  function CallsMade(batch: seq<Scored>): nat {
    if batch == [] then 0 else CallsMade(batch[..|batch| - 1]) + CallsOf(batch[|batch| - 1])
  }

  lemma RunStaysWithinItsCalls(run: Scored, b: Graph.Budgets)
    requires Plays(run, b) && b.modelCalls >= 0
    ensures CallsOf(run) <= b.modelCalls + b.repairs
  {
    GraphTheorems.EveryPlayTerminatesWithinBudget(run.setup, run.inputs);
  }

  lemma {:induction false} BatchStaysWithinItsCalls(batch: seq<Scored>, b: Graph.Budgets)
    requires forall run | run in batch :: Plays(run, b)
    requires b.modelCalls >= 0
    ensures CallsMade(batch) <= |batch| * (b.modelCalls + b.repairs)
  {
    hide Plays, CallsOf;
    if batch != [] {
      BatchStaysWithinItsCalls(batch[..|batch| - 1], b);
      RunStaysWithinItsCalls(batch[|batch| - 1], b);
      OneRunMore(|batch|, b.modelCalls + b.repairs);
    }
  }

  lemma OneRunMore(runs: nat, each: nat)
    requires runs > 0
    ensures (runs - 1) * each + each == runs * each
  {
  }

  // ---------------------------------------------------------------- sufficiency

  /** An attempt of the batch: priced by `p`, under the batch's ceiling, offering one of the two tool
      sets, and billed no more than it reserved. */
  predicate OfBatch(a: Attempt, p: Pricing, ceiling: Money) {
    a.pricing == p && a.ceiling == ceiling && a.toolTokens <= TOOL_TOKENS && Excess(a) == 0.0
  }

  lemma PriceIsAtMostTheMaximum(a: Attempt, p: Pricing, ceiling: Money)
    requires p.Valid() && OfBatch(a, p, ceiling) && Estimate(a.request) <= MAX_INPUT_TOKENS
    ensures 0.0 <= Price(a) <= MaximumReservation(p)
  {
    CostIsMonotone(p, Estimate(a.request) + a.toolTokens, MAX_OUTPUT_TOKENS, MAX_INPUT_TOKENS + TOOL_TOKENS, MAX_OUTPUT_TOKENS);
  }

  lemma MaximumIsPositive(p: Pricing)
    requires p.Valid()
    ensures MaximumReservation(p) > 0.0
  {
  }

  lemma SendAddsItsPrice(b: Books, a: Attempt)
    requires Excess(a) == 0.0 && Price(a) >= 0.0
    ensures Spent(Send(b, a).0.rows) <= Spent(b.rows) + Price(a)
    ensures Send(b, a).1 == OverCeiling ==> Price(a) > a.ceiling - BUFFER - Spent(b.rows)
  {
    var key, usd := KeyOf(a.request), Price(a);
    var row := Row(key, usd, None);
    SpentAfterAppend(b.rows, row);
    AppendedIsFound(b.rows, row);
    var rows := Reserve(b.rows, a.ceiling, key, usd).0;
    if rows == b.rows + [row] && a.fate.Answers? {
      SpentAfterUpdate(rows, |b.rows|, row.(actual := Some(Cost(a.pricing, a.fate.inputTokens, a.fate.outputTokens))));
    }
    hide Price, KeyOf, Estimate, Cost, Spent, Recorded, IndexOf;
  }

  /** One attempt adds at most one maximum to the accounted total, and is granted while there is room
      for one. */
  lemma OneAttemptFits(b: Books, a: Attempt, p: Pricing, ceiling: Money)
    requires p.Valid() && OfBatch(a, p, ceiling)
    requires Spent(b.rows) + MaximumReservation(p) + BUFFER <= ceiling
    ensures Send(b, a).1 != OverCeiling
    ensures Spent(Send(b, a).0.rows) <= Spent(b.rows) + MaximumReservation(p)
  {
    MaximumIsPositive(p);
    if Estimate(a.request) <= MAX_INPUT_TOKENS {
      PriceIsAtMostTheMaximum(a, p, ceiling);
      SendAddsItsPrice(b, a);
      hide Price, Excess, Estimate, Send, MaximumReservation, Spent;
    } else {
      hide MaximumReservation, Excess, Price, Spent, KeyOf;
    }
  }

  lemma RoomForTheRest(rows: seq<Row>, rows': seq<Row>, probe: Pricing, n: nat, ceiling: Money)
    requires probe.Valid() && n >= 1 && Passes(rows, probe, n, ceiling)
    ensures Spent(rows) + MaximumReservation(probe) + BUFFER <= ceiling
    ensures Spent(rows') <= Spent(rows) + MaximumReservation(probe) ==> Passes(rows', probe, n - 1, ceiling)
  {
    MaximumIsPositive(probe);
    hide Spent, Worth;
    OneCallMore(n, MaximumReservation(probe));
    MoreIsWorthMore(n - 1, n - 1, MaximumReservation(probe), MaximumReservation(probe));
    hide MaximumReservation;
  }

  /** If the check passes for `calls` calls and the batch makes no more than that, at prices no higher
      than the check assumed, the ceiling refuses none of them, wherever the batch crashes or retries. */
  lemma {:induction false} PassingIsEnough(b: Books, attempts: seq<Attempt>, probe: Pricing, p: Pricing, ceiling: Money, i: nat)
    requires p.Valid() && probe.Valid() && MaximumReservation(p) <= MaximumReservation(probe)
    requires forall a | a in attempts :: OfBatch(a, p, ceiling)
    requires Passes(b.rows, probe, |attempts|, ceiling) && i < |attempts|
    ensures Send(SendAll(b, attempts[..i]), attempts[i]).1 != OverCeiling
    decreases i
  {
    var next := Send(b, attempts[0]).0;
    RoomForTheRest(b.rows, next.rows, probe, |attempts|, ceiling);
    OneAttemptFits(b, attempts[0], p, ceiling);
    hide Send, MaximumReservation, Spent, Passes, OfBatch;
    if i == 0 {
      assert attempts[..0] == [];
    } else {
      var rest := attempts[1..];
      assert attempts[..i][0] == attempts[0] && attempts[..i][1..] == rest[..i - 1];
      PassingIsEnough(next, rest, probe, p, ceiling, i - 1);
    }
  }

  // ---------------------------------------------------------------- what a batch asks

  function ToolTokens(phase: string): nat {
    if phase == Graph.PhaseName(Graph.Investigate) then PROPOSE_TOKENS else RESPOND_TOKENS
  }

  function EndOf(run: Scored): Graph.State {
    Graph.Play(run.setup, Graph.Start(run.setup), run.inputs)
  }

  /** `INFRASTRUCTURE_ABORT_REASONS`: a run that ends with one of these is the batch's last. */
  predicate Aborts(reason: Graph.Reason) {
    reason == Graph.CostCeilingExceeded || reason == Graph.InputTokenCapExceeded || reason == Graph.AmbiguousModelRequest
    || reason == Graph.WallClockExpired || reason == Graph.InternalError
  }

  predicate GoesOn(run: Scored) {
    EndOf(run).report.Some? && (EndOf(run).report.value.reason.Some? ==> !Aborts(EndOf(run).report.value.reason.value))
  }

  /** Each incident is run as a baseline first. */
  predicate IsBaseline(k: nat) {
    k % ARMS == 0
  }

  /** The runs `run_evaluation` makes: for each incident a baseline and then a run with tools, none
      escalated, each under an id of its own; the batch ends after a run that aborts. */
  ghost predicate LegalBatch(batch: seq<Scored>, b: Graph.Budgets) {
    && |batch| <= RUNS
    && (forall k | 0 <= k < |batch| ::
          Plays(batch[k], b) && batch[k].setup.suppressEscalation && (batch[k].setup.noTools <==> IsBaseline(k)))
    && (forall j, k | 0 <= j < k < |batch| :: batch[j].setup.runId != batch[k].setup.runId)
    && (forall k | 0 <= k < |batch| - 1 :: GoesOn(batch[k]))
  }

  function AllAsked(batch: seq<Scored>): seq<Graph.Asked> {
    if batch == [] then [] else AllAsked(batch[..|batch| - 1]) + EndOf(batch[|batch| - 1]).asked
  }

  /** The attempts are these calls, made by a model priced `p` under the batch's ceiling, with no bill
      beyond its reservation. */
  ghost predicate Sends(attempts: seq<Attempt>, asked: seq<Graph.Asked>, p: Pricing, ceiling: Money) {
    && |attempts| == |asked|
    && forall i | 0 <= i < |asked| ::
         && attempts[i].request == asked[i].request
         && attempts[i].toolTokens == ToolTokens(asked[i].request.phase)
         && OfBatch(attempts[i], p, ceiling)
  }

  function OutcomeOf(books: Books, attempts: seq<Attempt>, i: nat): Outcome
    requires i < |attempts|
  {
    Send(SendAll(books, attempts[..i]), attempts[i]).1
  }

  /** The reply a stage gets is the outcome of sending its request. A process that died asks nothing
      more. */
  predicate Explains(o: Outcome, reply: Graph.Reply) {
    match o
    case Answered => reply.Usable? || reply.Unusable? || reply.Failed?
    case OverCeiling => reply == Graph.Declined(Graph.CostCeilingExceeded)
    case TooLarge => reply == Graph.Declined(Graph.InputTokenCapExceeded)
    case Ambiguous => reply == Graph.Declined(Graph.AmbiguousModelRequest)
    case Died => false
    case _ => reply.Failed?
  }

  /** The batch gets as far as its call `i`: what is asked next depends on nothing later. */
  ghost predicate Reaches(books: Books, b: Graph.Budgets, batch: seq<Scored>, attempts: seq<Attempt>, p: Pricing, ceiling: Money, i: nat) {
    && LegalBatch(batch, b)
    && Sends(attempts, AllAsked(batch), p, ceiling)
    && i < |attempts|
    && forall j | 0 <= j < i :: Explains(OutcomeOf(books, attempts, j), AllAsked(batch)[j].reply)
  }

  // ---------------------------------------------------------------- what a batch can cost

  /** A request as large as the gate admits, and one that leaves room for the shortest correction. */
  function Full(p: Pricing, toolTokens: nat): Money {
    Worst(p, MAX_INPUT_TOKENS + toolTokens)
  }

  function Short(p: Pricing, toolTokens: nat): Money {
    Worst(p, MAX_INPUT_TOKENS - |CORRECTION| - 1 + toolTokens)
  }

  /** `turns` more turns and then the assessment, with `repairs` corrections to spend: a correction is
      dearest in a turn, and a turn has at most one. */
  function Ahead(p: Pricing, turns: nat, repairs: nat): Money {
    Worth(turns, Full(p, PROPOSE_TOKENS)) + Worth(if repairs < turns then repairs else turns, Short(p, PROPOSE_TOKENS))
    + Full(p, RESPOND_TOKENS) + if repairs > turns then Short(p, RESPOND_TOKENS) else 0.0
  }

  function WorstRun(p: Pricing, b: Graph.Budgets, noTools: bool): Money
    requires b.modelCalls >= 1
  {
    Ahead(p, if noTools then 0 else b.modelCalls - 1, b.repairs)
  }

  /** What a whole batch can reserve, at most. */
  function WorstBatch(p: Pricing, b: Graph.Budgets): Money
    requires b.modelCalls >= 1
  {
    Worth(INCIDENTS, WorstRun(p, b, true) + WorstRun(p, b, false))
  }

  lemma FullAndShort(p: Pricing)
    requires p.Valid()
    ensures 0.0 < Short(p, RESPOND_TOKENS) <= Short(p, PROPOSE_TOKENS) <= Full(p, PROPOSE_TOKENS) == MaximumReservation(p)
    ensures Short(p, RESPOND_TOKENS) <= Full(p, RESPOND_TOKENS) <= Full(p, PROPOSE_TOKENS)
  {
  }

  lemma OneTurnMore(p: Pricing, turns: nat, repairs: nat)
    requires p.Valid() && turns > 0
    ensures Ahead(p, turns, repairs) >= Full(p, PROPOSE_TOKENS) + Ahead(p, turns - 1, repairs)
    ensures repairs == 0 ==> Ahead(p, turns, 0) == Full(p, PROPOSE_TOKENS) + Ahead(p, turns - 1, 0)
    ensures repairs > 0 ==>
              Ahead(p, turns, repairs) == Full(p, PROPOSE_TOKENS) + Short(p, PROPOSE_TOKENS) + Ahead(p, turns - 1, repairs - 1)
  {
    FullAndShort(p);
    OneCallMore(turns, Full(p, PROPOSE_TOKENS));
    var few := if repairs < turns then repairs else turns;
    OneCallMore(few, Short(p, PROPOSE_TOKENS));
    hide Full, Short, Worth;
  }

  lemma {:induction false} MoreTurnsCostMore(p: Pricing, turns: nat, repairs: nat)
    requires p.Valid()
    ensures 0.0 < Ahead(p, 0, repairs) <= Ahead(p, turns, repairs)
    decreases turns
  {
    FullAndShort(p);
    if turns > 0 {
      OneTurnMore(p, turns, repairs);
      hide Full, Ahead;
      MoreTurnsCostMore(p, turns - 1, repairs);
    }
  }

  /** What a request adds to the accounted total, at most: one that is too large is not reserved, an
      empty correction is refused as ambiguous. */
  function Charge(p: Pricing, r: Request): Money {
    if Estimate(r) > MAX_INPUT_TOKENS || r.errors == Some("") then 0.0
    else Worst(p, Estimate(r) + ToolTokens(r.phase))
  }

  function Charges(p: Pricing, asked: seq<Graph.Asked>): Money {
    if asked == [] then 0.0 else Charges(p, asked[..|asked| - 1]) + Charge(p, asked[|asked| - 1].request)
  }

  lemma {:induction false} ChargesAppend(p: Pricing, asked: seq<Graph.Asked>, more: seq<Graph.Asked>)
    ensures Charges(p, asked + more) == Charges(p, asked) + Charges(p, more)
    decreases |more|
  {
    hide Charge;
    if more == [] {
      assert asked + more == asked;
    } else {
      assert (asked + more)[..|asked + more| - 1] == asked + more[..|more| - 1];
      ChargesAppend(p, asked, more[..|more| - 1]);
    }
  }

  lemma ChargeIsNatural(p: Pricing, r: Request)
    requires p.Valid()
    ensures Charge(p, r) >= 0.0
  {
    hide Estimate, ToolTokens;
  }

  lemma {:induction false} PrefixCostsNoMore(p: Pricing, asked: seq<Graph.Asked>, n: nat)
    requires p.Valid() && n <= |asked|
    ensures Charges(p, asked[..n]) <= Charges(p, asked)
    decreases |asked|
  {
    hide Charge;
    if n == |asked| {
      assert asked[..n] == asked;
    } else {
      ChargeIsNatural(p, asked[|asked| - 1].request);
      PrefixCostsNoMore(p, asked[..|asked| - 1], n);
      assert asked[..|asked| - 1][..n] == asked[..n];
    }
  }

  lemma PlainRequestCosts(p: Pricing, r: Request)
    requires p.Valid() && r.errors.None?
    ensures Charge(p, r) <= Full(p, ToolTokens(r.phase))
  {
    if Estimate(r) <= MAX_INPUT_TOKENS {
      CostIsMonotone(p, Estimate(r) + ToolTokens(r.phase), MAX_OUTPUT_TOKENS, MAX_INPUT_TOKENS + ToolTokens(r.phase), MAX_OUTPUT_TOKENS);
    }
    hide Estimate, ToolTokens;
  }

  /** A request and its correction share one cap. */
  lemma CorrectedRequestCosts(p: Pricing, r: Request, errors: string)
    requires p.Valid() && r.errors.None?
    ensures var tokens := ToolTokens(r.phase);
            Charge(p, r) + Charge(p, r.(errors := Some(errors))) <= Full(p, tokens) + Short(p, tokens)
  {
    var again, tokens := r.(errors := Some(errors)), ToolTokens(r.phase);
    PlainRequestCosts(p, r);
    if errors != "" && Estimate(again) <= MAX_INPUT_TOKENS {
      assert Estimate(again) == Estimate(r) + |CORRECTION| + |errors|;
      assert |errors| >= 1;
      CostIsMonotone(p, Estimate(again) + tokens, MAX_OUTPUT_TOKENS, MAX_INPUT_TOKENS + tokens, MAX_OUTPUT_TOKENS);
      CostIsMonotone(p, Estimate(r) + tokens, MAX_OUTPUT_TOKENS, MAX_INPUT_TOKENS - |CORRECTION| - 1 + tokens, MAX_OUTPUT_TOKENS);
    } else {
      CostIsMonotone(p, 0, MAX_OUTPUT_TOKENS, MAX_INPUT_TOKENS - |CORRECTION| - 1 + tokens, MAX_OUTPUT_TOKENS);
    }
    hide Estimate, ToolTokens, Cost;
  }

  /** What asking once in this state may add to the charges, by what it counted. */
  function Asking(p: Pricing, toolTokens: nat, before: Graph.Counters, after: Graph.Counters): Money {
    if after.calls == before.calls then 0.0
    else Full(p, toolTokens) + if after.repairs > before.repairs then Short(p, toolTokens) else 0.0
  }

  lemma AsksCost<T>(p: Pricing, setup: Graph.Setup, s: Graph.State, expired: bool, first: Graph.Turn<T>, second: Graph.Turn<T>)
    requires p.Valid()
    ensures var c := Graph.Ask(s.counters, setup.budgets, expired, first, second).0;
            Charges(p, Graph.Asks(setup, s, expired, first, second)) <= Asking(p, ToolTokens(Graph.PhaseName(s.node)), s.counters, c)
  {
    var asks := Graph.Asks(setup, s, expired, first, second);
    if asks != [] {
      var r := asks[0].request;
      assert r.errors.None? && r.phase == Graph.PhaseName(s.node);
      assert Charges(p, [asks[0]]) == Charge(p, r) by { assert [asks[0]][..0] == []; }
      if |asks| == 1 {
        assert asks == [asks[0]];
        PlainRequestCosts(p, r);
      } else {
        assert asks == [asks[0], asks[1]] && asks[..1] == [asks[0]];
        assert asks[1].request == r.(errors := Some(first.errors));
        CorrectedRequestCosts(p, r, first.errors);
      }
    }
    hide Charge, Full, Short, ToolTokens, Graph.RequestAt;
  }

  /** What a run may still cost from here. */
  function Left(p: Pricing, b: Graph.Budgets, s: Graph.State): Money
    requires s.counters.repairs <= b.repairs
  {
    var turns, repairs: nat := b.modelCalls - 1 - s.turn, b.repairs - s.counters.repairs;
    match s.node
    case Investigate => Ahead(p, if turns > 0 then turns else 0, repairs)
    case Dispatch => Ahead(p, if turns > 0 then turns else 0, repairs)
    case Normalize => Ahead(p, if turns > 0 then turns else 0, repairs)
    case FinalAssessment => Ahead(p, 0, repairs)
    case _ => 0.0
  }

  lemma InvestigatingKeeps(setup: Graph.Setup, s: Graph.State, input: Graph.Input)
    requires input.Investigating? && s.node == Graph.Investigate
    ensures var s' := Graph.Step(setup, s, input);
            && s'.asked == s.asked + Graph.Asks(setup, s, input.expired, input.plan, input.replan)
            && s'.counters == Graph.Ask(s.counters, setup.budgets, input.expired, input.plan, input.replan).0
            && if s'.node == Graph.Dispatch then s'.turn == s.turn + 1 && s'.counters.calls > s.counters.calls
               else s'.node == Graph.FinalReport || s'.node == Graph.FinalAssessment
  {
    hide Graph.Asks;
  }

  /** One turn, with or without a correction, and what it leaves. */
  lemma OneTurnCosts(p: Pricing, turns: nat, repairs: nat)
    requires p.Valid() && turns > 0
    ensures 0.0 < Ahead(p, 0, repairs) <= Ahead(p, turns - 1, repairs) <= Ahead(p, turns, repairs) - Full(p, PROPOSE_TOKENS)
    ensures repairs > 0 ==>
              0.0 < Ahead(p, 0, repairs - 1) <= Ahead(p, turns - 1, repairs - 1)
              <= Ahead(p, turns, repairs) - Full(p, PROPOSE_TOKENS) - Short(p, PROPOSE_TOKENS)
    ensures Full(p, PROPOSE_TOKENS) > 0.0
  {
    OneTurnMore(p, turns, repairs);
    MoreTurnsCostMore(p, turns - 1, repairs);
    if repairs > 0 { MoreTurnsCostMore(p, turns - 1, repairs - 1); }
    FullAndShort(p);
    hide Full, Short, Ahead, MaximumReservation;
  }

  lemma LeftAfterTurn(p: Pricing, b: Graph.Budgets, s: Graph.State, s': Graph.State)
    requires p.Valid() && s.node == Graph.Investigate && s.turn <= b.modelCalls - 2
    requires s.counters.repairs <= s'.counters.repairs <= s.counters.repairs + 1 && s'.counters.repairs <= b.repairs
    requires s'.counters.calls == s.counters.calls ==> s'.counters == s.counters
    requires if s'.node == Graph.Dispatch then s'.turn == s.turn + 1 && s'.counters.calls > s.counters.calls
             else s'.node == Graph.FinalReport || s'.node == Graph.FinalAssessment
    ensures Asking(p, PROPOSE_TOKENS, s.counters, s'.counters) + Left(p, b, s') <= Left(p, b, s)
  {
    OneTurnCosts(p, b.modelCalls - 1 - s.turn, b.repairs - s.counters.repairs);
    hide Full, Short, Ahead;
  }

  lemma InvestigateTurn(setup: Graph.Setup, s: Graph.State)
    requires GraphTheorems.Invariant(setup, s) && s.node == Graph.Investigate && setup.budgets.modelCalls >= 2
    ensures s.turn <= setup.budgets.modelCalls - 2 && s.counters.repairs <= setup.budgets.repairs && s.counters.repairs <= s.counters.calls
  {
  }

  lemma InvestigatingCosts(p: Pricing, setup: Graph.Setup, s: Graph.State, input: Graph.Input)
    requires p.Valid() && setup.budgets.modelCalls >= 2 && input.Investigating?
    requires GraphTheorems.Invariant(setup, s) && Graph.Fits(s, input)
    ensures var s' := Graph.Step(setup, s, input);
            && s'.counters.repairs <= setup.budgets.repairs
            && Charges(p, s'.asked) + Left(p, setup.budgets, s') <= Charges(p, s.asked) + Left(p, setup.budgets, s)
  {
    hide Full, Short, Ahead, Left, Charges, Graph.Asks, Graph.Investigated, Graph.Step, GraphTheorems.Invariant;
    var b, c, s' := setup.budgets, s.counters, Graph.Step(setup, s, input);
    InvestigateTurn(setup, s);
    Graph.AskStaysWithinBudgets(c, b, input.expired, input.plan, input.replan);
    InvestigatingKeeps(setup, s, input);
    AskCounts(c, b, input.expired, input.plan, input.replan);
    hide Graph.Ask;
    ChargesAppend(p, s.asked, Graph.Asks(setup, s, input.expired, input.plan, input.replan));
    AsksCost(p, setup, s, input.expired, input.plan, input.replan);
    LeftAfterTurn(p, b, s, s');
  }

  lemma AskCounts<T>(c: Graph.Counters, b: Graph.Budgets, expired: bool, first: Graph.Turn<T>, second: Graph.Turn<T>)
    ensures var c' := Graph.Ask(c, b, expired, first, second).0; c'.calls == c.calls ==> c' == c
  {
  }

  lemma AssessingCosts(p: Pricing, setup: Graph.Setup, s: Graph.State, input: Graph.Input)
    requires p.Valid() && setup.budgets.modelCalls >= 2 && input.Assessing?
    requires GraphTheorems.Invariant(setup, s) && Graph.Fits(s, input)
    ensures var s' := Graph.Step(setup, s, input);
            && s'.counters.repairs <= setup.budgets.repairs
            && Charges(p, s'.asked) + Left(p, setup.budgets, s') <= Charges(p, s.asked) + Left(p, setup.budgets, s)
  {
    hide Full, Short, Ahead, Left, Charges, Graph.Asks, Graph.Assessed, Graph.Step, GraphTheorems.Invariant;
    var b, c, s' := setup.budgets, s.counters, Graph.Step(setup, s, input);
    KeptWithinBudgets(setup, s);
    Graph.AskStaysWithinBudgets(c, b, input.expired, input.answer, input.correction);
    ConcludingKeeps(setup, s, input);
    AskCounts(c, b, input.expired, input.answer, input.correction);
    hide Graph.Ask;
    ChargesAppend(p, s.asked, Graph.Asks(setup, s, input.expired, input.answer, input.correction));
    AsksCost(p, setup, s, input.expired, input.answer, input.correction);
    LeftAfterAssessment(p, b, s, s');
  }

  lemma KeptWithinBudgets(setup: Graph.Setup, s: Graph.State)
    requires GraphTheorems.Invariant(setup, s)
    ensures s.counters.repairs <= setup.budgets.repairs && s.counters.repairs <= s.counters.calls
  {
  }

  lemma LeftAfterAssessment(p: Pricing, b: Graph.Budgets, s: Graph.State, s': Graph.State)
    requires p.Valid() && s.node == Graph.FinalAssessment && (s'.node == Graph.FinalReport || s'.node == Graph.Interrupt)
    requires s.counters.repairs <= s'.counters.repairs <= s.counters.repairs + 1 && s'.counters.repairs <= b.repairs
    ensures Asking(p, RESPOND_TOKENS, s.counters, s'.counters) + Left(p, b, s') <= Left(p, b, s)
  {
    FullAndShort(p);
    OneAssessment(p, b.repairs - s.counters.repairs);
    hide Full, Short, Ahead, MaximumReservation;
  }

  lemma OneAssessment(p: Pricing, repairs: nat)
    ensures Ahead(p, 0, repairs) == Full(p, RESPOND_TOKENS) + if repairs > 0 then Short(p, RESPOND_TOKENS) else 0.0
  {
    hide Full, Short;
  }

  lemma ConcludingKeeps(setup: Graph.Setup, s: Graph.State, input: Graph.Input)
    requires input.Assessing? && s.node == Graph.FinalAssessment
    ensures var s' := Graph.Step(setup, s, input);
            && s'.asked == s.asked + Graph.Asks(setup, s, input.expired, input.answer, input.correction)
            && s'.counters == Graph.Ask(s.counters, setup.budgets, input.expired, input.answer, input.correction).0
            && (s'.node == Graph.FinalReport || s'.node == Graph.Interrupt)
  {
    hide Graph.Asks, Graph.Ask, Graph.EscalationReasonOf;
  }

  lemma OtherStepsCost(p: Pricing, setup: Graph.Setup, s: Graph.State, input: Graph.Input)
    requires p.Valid() && setup.budgets.modelCalls >= 2 && !input.Investigating? && !input.Assessing?
    requires GraphTheorems.Invariant(setup, s) && Graph.Fits(s, input)
    ensures var s' := Graph.Step(setup, s, input);
            && s'.counters.repairs <= setup.budgets.repairs
            && Charges(p, s'.asked) + Left(p, setup.budgets, s') <= Charges(p, s.asked) + Left(p, setup.budgets, s)
  {
    var b := setup.budgets;
    var turns: int := b.modelCalls - 1 - s.turn;
    MoreTurnsCostMore(p, if turns > 0 then turns else 0, b.repairs - s.counters.repairs);
    hide Ahead, Charges, Graph.BuildReport, Graph.EscalationReasonOf, Graph.SlotsSpent;
  }

  lemma StepCosts(p: Pricing, setup: Graph.Setup, s: Graph.State, input: Graph.Input)
    requires p.Valid() && setup.budgets.modelCalls >= 2
    requires GraphTheorems.Invariant(setup, s) && s.counters.repairs <= setup.budgets.repairs && Graph.Fits(s, input)
    ensures var s' := Graph.Step(setup, s, input);
            && s'.counters.repairs <= setup.budgets.repairs
            && Charges(p, s'.asked) + Left(p, setup.budgets, s') <= Charges(p, s.asked) + Left(p, setup.budgets, s)
  {
    hide Left, Charges, GraphTheorems.Invariant, Graph.Step, Graph.Fits;
    if input.Investigating? {
      InvestigatingCosts(p, setup, s, input);
    } else if input.Assessing? {
      AssessingCosts(p, setup, s, input);
    } else {
      OtherStepsCost(p, setup, s, input);
    }
  }

  lemma {:induction false} PlayCosts(p: Pricing, setup: Graph.Setup, s: Graph.State, inputs: seq<Graph.Input>)
    requires p.Valid() && setup.budgets.modelCalls >= 2
    requires GraphTheorems.Invariant(setup, s) && s.counters.repairs <= setup.budgets.repairs && Graph.Playable(setup, s, inputs)
    ensures Charges(p, Graph.Play(setup, s, inputs).asked) <= Charges(p, s.asked) + Left(p, setup.budgets, s)
    decreases |inputs|
  {
    if inputs == [] {
      LeftIsNatural(p, setup.budgets, s);
    } else {
      hide GraphTheorems.Invariant, Graph.Step, Graph.Fits, Charges, Left;
      StepCosts(p, setup, s, inputs[0]);
      GraphTheorems.StepKeepsInvariant(setup, s, inputs[0]);
      PlayCosts(p, setup, Graph.Step(setup, s, inputs[0]), inputs[1..]);
    }
  }

  lemma LeftIsNatural(p: Pricing, b: Graph.Budgets, s: Graph.State)
    requires p.Valid() && s.counters.repairs <= b.repairs
    ensures Left(p, b, s) >= 0.0
  {
    var turns: int := b.modelCalls - 1 - s.turn;
    MoreTurnsCostMore(p, if turns > 0 then turns else 0, b.repairs - s.counters.repairs);
    hide Ahead;
  }

  /** No run reserves more than the worst one. */
  lemma RunCostsAtMost(p: Pricing, run: Scored, b: Graph.Budgets)
    requires p.Valid() && b.modelCalls >= 2 && Plays(run, b)
    ensures Charges(p, EndOf(run).asked) <= WorstRun(p, b, run.setup.noTools)
  {
    hide GraphTheorems.Invariant, Graph.Start, Graph.Play, Graph.Playable, Left, WorstRun, Charges;
    GraphTheorems.InvariantAtStart(run.setup);
    StartCosts(p, run.setup);
    PlayCosts(p, run.setup, Graph.Start(run.setup), run.inputs);
  }

  lemma StartCosts(p: Pricing, setup: Graph.Setup)
    requires setup.budgets.modelCalls >= 2
    ensures var s := Graph.Start(setup);
            && s.counters.repairs == 0
            && Charges(p, s.asked) + Left(p, setup.budgets, s) == WorstRun(p, setup.budgets, setup.noTools)
  {
    hide Ahead;
  }

  /** The first `n` runs of a batch, at their worst. */
  function WorstRuns(p: Pricing, b: Graph.Budgets, n: nat): Money
    requires b.modelCalls >= 1
  {
    if n == 0 then 0.0 else WorstRuns(p, b, n - 1) + WorstRun(p, b, IsBaseline(n - 1))
  }

  lemma {:induction false} WorstPairs(p: Pricing, b: Graph.Budgets, pairs: nat)
    requires b.modelCalls >= 1
    ensures WorstRuns(p, b, 2 * pairs) == Worth(pairs, WorstRun(p, b, true) + WorstRun(p, b, false))
  {
    hide WorstRun;
    if pairs > 0 {
      WorstPairs(p, b, pairs - 1);
      OneCallMore(pairs, WorstRun(p, b, true) + WorstRun(p, b, false));
      assert !IsBaseline(2 * pairs - 1) && IsBaseline(2 * pairs - 2);
      assert WorstRuns(p, b, 2 * pairs) == WorstRuns(p, b, 2 * pairs - 1) + WorstRun(p, b, false);
    }
  }

  lemma {:induction false} MoreRunsCostMore(p: Pricing, b: Graph.Budgets, few: nat, many: nat)
    requires p.Valid() && b.modelCalls >= 1 && few <= many
    ensures WorstRuns(p, b, few) <= WorstRuns(p, b, many)
    decreases many
  {
    if few < many {
      MoreTurnsCostMore(p, b.modelCalls - 1, b.repairs);
      hide Ahead;
      MoreRunsCostMore(p, b, few, many - 1);
    }
  }

  lemma {:induction false} RunsCostAtMost(p: Pricing, batch: seq<Scored>, b: Graph.Budgets)
    requires p.Valid() && b.modelCalls >= 2
    requires forall k | 0 <= k < |batch| :: Plays(batch[k], b) && (batch[k].setup.noTools <==> IsBaseline(k))
    ensures Charges(p, AllAsked(batch)) <= WorstRuns(p, b, |batch|)
    decreases |batch|
  {
    hide Plays, EndOf, WorstRun;
    if batch != [] {
      var rest, last := batch[..|batch| - 1], batch[|batch| - 1];
      RunsCostAtMost(p, rest, b);
      RunCostsAtMost(p, last, b);
      ChargesAppend(p, AllAsked(rest), EndOf(last).asked);
    }
  }

  /** What all the calls of a batch can reserve together. */
  lemma BatchCostsAtMost(p: Pricing, batch: seq<Scored>, b: Graph.Budgets)
    requires p.Valid() && b.modelCalls >= 2 && LegalBatch(batch, b)
    ensures Charges(p, AllAsked(batch)) <= WorstBatch(p, b)
  {
    hide Plays, GoesOn, Charges, WorstRun, Worth;
    RunsCostAtMost(p, batch, b);
    MoreRunsCostMore(p, b, |batch|, RUNS);
    WorstPairs(p, b, INCIDENTS);
  }

  // ---------------------------------------------------------------- what a batch does spend

  /** A correction follows the request it corrects, whose answer was unusable. */
  ghost predicate Corrects(asked: seq<Graph.Asked>) {
    forall i | 0 <= i < |asked| && asked[i].request.errors.Some? ::
      i > 0 && asked[i - 1].reply.Unusable? && asked[i - 1].request == asked[i].request.(errors := None)
  }

  lemma CorrectsAppend(asked: seq<Graph.Asked>, more: seq<Graph.Asked>)
    requires Corrects(asked) && Corrects(more)
    ensures Corrects(asked + more)
  {
    var all := asked + more;
    forall i | 0 <= i < |all| && all[i].request.errors.Some?
      ensures i > 0 && all[i - 1].reply.Unusable? && all[i - 1].request == all[i].request.(errors := None)
    {
      if i < |asked| {
        assert all[i] == asked[i] && (i > 0 ==> all[i - 1] == asked[i - 1]);
      } else {
        assert all[i] == more[i - |asked|] && (i > |asked| ==> all[i - 1] == more[i - |asked| - 1]);
      }
    }
  }

  lemma AsksCorrect<T>(setup: Graph.Setup, s: Graph.State, expired: bool, first: Graph.Turn<T>, second: Graph.Turn<T>)
    ensures Corrects(Graph.Asks(setup, s, expired, first, second))
  {
  }

  lemma StepCorrects(setup: Graph.Setup, s: Graph.State, input: Graph.Input)
    requires Corrects(s.asked)
    ensures Corrects(Graph.Step(setup, s, input).asked)
  {
    hide Graph.Asks, Graph.Ask, Corrects, Graph.EscalationReasonOf, Graph.BuildReport;
    match input {
      case Investigating(expired, plan, replan) =>
        AsksCorrect(setup, s, expired, plan, replan);
        CorrectsAppend(s.asked, Graph.Asks(setup, s, expired, plan, replan));
      case Assessing(expired, answer, correction) =>
        AsksCorrect(setup, s, expired, answer, correction);
        CorrectsAppend(s.asked, Graph.Asks(setup, s, expired, answer, correction));
      case _ =>
    }
  }

  lemma {:induction false} PlayCorrects(setup: Graph.Setup, s: Graph.State, inputs: seq<Graph.Input>)
    requires Corrects(s.asked)
    ensures Corrects(Graph.Play(setup, s, inputs).asked)
    decreases |inputs|
  {
    hide Corrects, Graph.Step;
    if inputs != [] {
      StepCorrects(setup, s, inputs[0]);
      PlayCorrects(setup, Graph.Step(setup, s, inputs[0]), inputs[1..]);
    }
  }

  lemma {:induction false} BatchCorrects(batch: seq<Scored>)
    ensures Corrects(AllAsked(batch))
    decreases |batch|
  {
    if batch != [] {
      var last := batch[|batch| - 1];
      BatchCorrects(batch[..|batch| - 1]);
      PlayCorrects(last.setup, Graph.Start(last.setup), last.inputs);
      CorrectsAppend(AllAsked(batch[..|batch| - 1]), EndOf(last).asked);
    }
  }

  lemma AnsweredIsRecorded(b: Books, a: Attempt)
    requires Send(b, a).1.Answered?
    ensures Recorded(Send(b, a).0.rows, KeyOf(a.request))
  {
    var key, row := KeyOf(a.request), Row(KeyOf(a.request), Price(a), None);
    AppendedIsFound(b.rows, row);
    SettlingKeepsKeys(b.rows + [row], key, Cost(a.pricing, a.fate.inputTokens, a.fate.outputTokens), key);
    hide Price, KeyOf, Estimate, Cost, Spent, Recorded, IndexOf, Settle;
  }

  lemma RecordedIsNotReservedAgain(b: Books, a: Attempt)
    requires Recorded(b.rows, KeyOf(a.request))
    ensures Send(b, a).0.rows == b.rows && Send(b, a).1 != OverCeiling
  {
    hide Price, KeyOf, Estimate, Cost, Spent, Recorded, IndexOf, Settle;
  }

  lemma TooLargeIsNotReserved(b: Books, a: Attempt)
    requires Estimate(a.request) > MAX_INPUT_TOKENS
    ensures Send(b, a).0.rows == b.rows && Send(b, a).1 != OverCeiling
  {
    hide Price, KeyOf, Estimate, Cost, Spent, Recorded, IndexOf, Settle, Reserve;
  }

  /** One call adds at most its charge, and a refused one has a charge there is no room for. */
  lemma OneCallSpends(b: Books, a: Attempt, p: Pricing, ceiling: Money)
    requires p.Valid() && OfBatch(a, p, ceiling) && a.toolTokens == ToolTokens(a.request.phase)
    requires a.request.errors == Some("") ==> Recorded(b.rows, KeyOf(a.request))
    ensures Spent(Send(b, a).0.rows) <= Spent(b.rows) + Charge(p, a.request)
    ensures Send(b, a).1 == OverCeiling ==> Charge(p, a.request) > ceiling - BUFFER - Spent(b.rows)
  {
    hide Send, Recorded, KeyOf, Spent, Estimate, ToolTokens, Excess, Worst;
    ChargeIsNatural(p, a.request);
    if Estimate(a.request) > MAX_INPUT_TOKENS {
      TooLargeIsNotReserved(b, a);
    } else if a.request.errors == Some("") {
      RecordedIsNotReservedAgain(b, a);
    } else {
      assert Price(a) == Charge(p, a.request);
      SendAddsItsPrice(b, a);
    }
  }

  /** An empty correction repeats a request that is in the ledger. */
  lemma EmptyCorrectionIsRecorded(books: Books, attempts: seq<Attempt>, asked: seq<Graph.Asked>, p: Pricing, ceiling: Money, n: nat)
    requires Sends(attempts, asked, p, ceiling) && Corrects(asked) && n < |attempts|
    requires forall j | 0 <= j < n :: Explains(OutcomeOf(books, attempts, j), asked[j].reply)
    requires attempts[n].request.errors == Some("")
    ensures Recorded(SendAll(books, attempts[..n]).rows, KeyOf(attempts[n].request))
  {
    var before := SendAll(books, attempts[..n - 1]);
    assert asked[n - 1].reply.Unusable? && OutcomeOf(books, attempts, n - 1).Answered?;
    assert Send(before, attempts[n - 1]).1.Answered?;
    assert attempts[n - 1].request == attempts[n].request.(errors := None);
    assert attempts[..n] == attempts[..n - 1] + [attempts[n - 1]];
    hide Send, KeyOf, Recorded, Corrects, Sends;
    AnsweredIsRecorded(before, attempts[n - 1]);
    SendingOneMore(books, attempts[..n - 1], attempts[n - 1]);
    RepairKeyIsNewExactlyWithErrors(attempts[n - 1].request, "");
    assert attempts[n].request == attempts[n - 1].request.(errors := Some(""));
  }

  lemma {:induction false} CallsSpend(books: Books, attempts: seq<Attempt>, asked: seq<Graph.Asked>, p: Pricing, ceiling: Money, n: nat)
    requires p.Valid() && Sends(attempts, asked, p, ceiling) && Corrects(asked) && n <= |attempts|
    requires forall j | 0 <= j < n :: Explains(OutcomeOf(books, attempts, j), asked[j].reply)
    ensures Spent(SendAll(books, attempts[..n]).rows) <= Spent(books.rows) + Charges(p, asked[..n])
    decreases n
  {
    if n == 0 {
      assert attempts[..0] == [] && asked[..0] == [];
    } else {
      var a, before := attempts[n - 1], SendAll(books, attempts[..n - 1]);
      assert attempts[..n] == attempts[..n - 1] + [a] && asked[..n] == asked[..n - 1] + [asked[n - 1]];
      assert asked[..n][..n - 1] == asked[..n - 1];
      assert OfBatch(a, p, ceiling) && a.toolTokens == ToolTokens(a.request.phase) && a.request == asked[n - 1].request;
      if a.request.errors == Some("") { EmptyCorrectionIsRecorded(books, attempts, asked, p, ceiling, n - 1); }
      hide Send, KeyOf, Recorded, Corrects, Sends, Spent, Charge, Explains, OfBatch, ToolTokens;
      CallsSpend(books, attempts, asked, p, ceiling, n - 1);
      SendingOneMore(books, attempts[..n - 1], a);
      OneCallSpends(before, a, p, ceiling);
    }
  }

  /** The batch of `run_evaluation`: a check that passed for its budgets, no bill beyond its
      reservation and no other writer; then no reservation is refused, if the batch at its worst costs
      no more than the check assumed. */
  lemma NoReservationOfTheBatchIsRefused(books: Books, b: Graph.Budgets, batch: seq<Scored>, attempts: seq<Attempt>,
                                         probe: Pricing, p: Pricing, ceiling: Money, i: nat)
    requires p.Valid() && b.modelCalls >= 2 && WorstBatch(p, b) <= Worth(BatchCalls(b), MaximumReservation(probe))
    requires Passes(books.rows, probe, BatchCalls(b), ceiling) && Reaches(books, b, batch, attempts, p, ceiling, i)
    ensures OutcomeOf(books, attempts, i) != OverCeiling
  {
    var asked := AllAsked(batch);
    BatchCorrects(batch);
    BatchCostsAtMost(p, batch, b);
    hide Send, KeyOf, Recorded, Corrects, Spent, Charge, LegalBatch, AllAsked, WorstBatch, Worth, MaximumReservation, Explains;
    RoomIsLeft(books, attempts, asked, p, ceiling, i);
  }

  /** A refusal means that the charges so far, this one included, do not fit. */
  lemma RoomIsLeft(books: Books, attempts: seq<Attempt>, asked: seq<Graph.Asked>, p: Pricing, ceiling: Money, i: nat)
    requires p.Valid() && Sends(attempts, asked, p, ceiling) && Corrects(asked) && i < |attempts|
    requires forall j | 0 <= j < i :: Explains(OutcomeOf(books, attempts, j), asked[j].reply)
    ensures OutcomeOf(books, attempts, i) == OverCeiling ==> Spent(books.rows) + Charges(p, asked) > ceiling - BUFFER
  {
    var a := attempts[i];
    if a.request.errors == Some("") { EmptyCorrectionIsRecorded(books, attempts, asked, p, ceiling, i); }
    assert OfBatch(a, p, ceiling) && a.request == asked[i].request && a.toolTokens == ToolTokens(a.request.phase);
    assert asked[..i + 1] == asked[..i] + [asked[i]] && asked[..i + 1][..i] == asked[..i];
    hide Send, KeyOf, Recorded, Corrects, Sends, Spent, Charge, Explains, OfBatch, ToolTokens;
    CallsSpend(books, attempts, asked, p, ceiling, i);
    PrefixCostsNoMore(p, asked, i + 1);
    OneCallSpends(SendAll(books, attempts[..i]), a, p, ceiling);
  }

  /** In particular if no call of the batch's model costs more than the check's dearest call. */
  lemma DearestCallIsEnough(b: Graph.Budgets, probe: Pricing, p: Pricing)
    requires p.Valid() && probe.Valid() && b.modelCalls >= 1 && MaximumReservation(p) <= MaximumReservation(probe)
    ensures WorstBatch(p, b) <= Worth(BatchCalls(b), MaximumReservation(probe))
  {
    var most, turns := MaximumReservation(p), b.modelCalls - 1;
    AheadIsAtMost(p, 0, b.repairs);
    AheadIsAtMost(p, turns, b.repairs);
    MoreIsWorthMore(1 + b.repairs, b.modelCalls + b.repairs, most, most);
    MaximumIsPositive(p);
    MaximumIsPositive(probe);
    MoreIsWorthMore(BatchCalls(b), BatchCalls(b), most, MaximumReservation(probe));
    hide MaximumReservation, Ahead, Worth;
    PairsAreWorth(b.modelCalls + b.repairs, most, WorstRun(p, b, true), WorstRun(p, b, false));
  }

  lemma PairsAreWorth(calls: nat, price: Money, one: Money, other: Money)
    requires one <= Worth(calls, price) && other <= Worth(calls, price)
    ensures Worth(INCIDENTS, one + other) <= Worth(RUNS * calls, price)
  {
    assert (RUNS * calls) as real == RUNS as real * calls as real;
  }

  lemma {:induction false} AheadIsAtMost(p: Pricing, turns: nat, repairs: nat)
    requires p.Valid()
    ensures Ahead(p, turns, repairs) <= Worth(turns + 1 + repairs, MaximumReservation(p))
    decreases turns
  {
    var most := MaximumReservation(p);
    FullAndShort(p);
    if turns == 0 {
      OneAssessment(p, repairs);
      MoreIsWorthMore(if repairs > 0 then 2 else 1, 1 + repairs, most, most);
      assert Worth(1, most) == most && Worth(2, most) == most + most;
    } else {
      OneTurnMore(p, turns, repairs);
      OneCallMore(turns + 1 + repairs, most);
      hide Full, Short, Ahead, MaximumReservation, Worth;
      if repairs > 0 {
        AheadIsAtMost(p, turns - 1, repairs - 1);
        OneCallMore(turns + repairs, most);
      } else {
        AheadIsAtMost(p, turns - 1, 0);
      }
    }
  }

  lemma {:induction false} SendingOneMore(b: Books, attempts: seq<Attempt>, a: Attempt)
    ensures SendAll(b, attempts + [a]) == Send(SendAll(b, attempts), a).0
    decreases |attempts|
  {
    if attempts == [] {
      assert attempts + [a] == [a] && [a][1..] == [];
    } else {
      assert (attempts + [a])[0] == attempts[0] && (attempts + [a])[1..] == attempts[1..] + [a];
      SendingOneMore(Send(b, attempts[0]).0, attempts[1..], a);
    }
  }
}

/** The one place a paid request leaves the program (`live_model.py`, `_send`): reserve, send,
    settle, with a process that may die anywhere in between. */
module SendGate {
  import opened Wrappers
  import opened Text
  import opened CostLedger

  const MAX_INPUT_TOKENS := 9600
  const MAX_OUTPUT_TOKENS := 1600
  const CORRECTION := "\n\n## Correction needed\n"

  /** Dollars per million tokens. */
  datatype Pricing = Pricing(input: Money, output: Money) {
    predicate Valid() { input > 0.0 && output > 0.0 }
  }

  function Cost(p: Pricing, inputTokens: nat, outputTokens: nat): Money {
    inputTokens as real / 1000000.0 * p.input + outputTokens as real / 1000000.0 * p.output
  }

  /** `reservation_usd` */
  function Worst(p: Pricing, inputTokens: nat): Money {
    Cost(p, inputTokens, MAX_OUTPUT_TOKENS)
  }

  datatype Request = Request(runId: string, phase: string, turn: int, system: string, context: string, errors: Option<string>)

  function ErrorText(r: Request): string {
    if r.errors.Some? then r.errors.value else ""
  }

  /** The digest `_render_stage_request` computes, inside the ledger's key. */
  function KeyOf(r: Request): Key {
    Key(r.runId, r.phase, r.turn, Sha256(r.system + r.context + ErrorText(r)))
  }

  function Content(r: Request): string {
    if ErrorText(r) != "" then r.context + CORRECTION + ErrorText(r) else r.context
  }

  /** One character counts as one token. */
  function Estimate(r: Request): nat {
    |r.system + Content(r)|
  }

  /** What becomes of an attempt that nothing refuses. */
  datatype Fate =
    | DiesUnreserved                  // the process dies before the reservation commits
    | DiesReserved                    // it dies between reserving and sending
    | Breaks                          // sent; then a timeout, a provider error, no usage, or the process dies
    | Answers(inputTokens: nat, outputTokens: nat)

  datatype Outcome =
    | NoCredential
    | TooLarge
    | OverCeiling
    | Ambiguous
    | BadLedgerInput
    | Died
    | Broken
    | Answered

  datatype Attempt = Attempt(credential: bool, pricing: Pricing, ceiling: Money, request: Request, toolTokens: nat, fate: Fate)

  function Price(a: Attempt): Money {
    Worst(a.pricing, Estimate(a.request) + a.toolTokens)
  }

  /** The durable ledger and the provider: every key it was ever sent, in order. */
  datatype Books = Books(rows: seq<Row>, sent: seq<Key>)

  function Send(b: Books, a: Attempt): (Books, Outcome) {
    var key := KeyOf(a.request);
    if !a.credential then (b, NoCredential)
    else if Estimate(a.request) > MAX_INPUT_TOKENS then (b, TooLarge)
    else if a.fate.DiesUnreserved? then (b, Died)
    else
      var (rows, reservation) := Reserve(b.rows, a.ceiling, key, Price(a));
      match reservation
      case Malformed => (b, BadLedgerInput)
      case CeilingExceeded(_) => (b, OverCeiling)
      case Existing(_) => (b, Ambiguous)
      case New(_) =>
        match a.fate
        case DiesUnreserved => (b, Died)
        case DiesReserved => (Books(rows, b.sent), Died)
        case Breaks => (Books(rows, b.sent + [key]), Broken)
        case Answers(input, output) =>
          (Books(Settle(rows, key, Cost(a.pricing, input, output)), b.sent + [key]), Answered)
  }

  function SendAll(b: Books, attempts: seq<Attempt>): Books
    decreases |attempts|
  {
    if attempts == [] then b else SendAll(Send(b, attempts[0]).0, attempts[1..])
  }

  // ---------------------------------------------------------------- at most once

  ghost predicate NoneTwice(keys: seq<Key>) {
    forall i, j | 0 <= i < j < |keys| :: keys[i] != keys[j]
  }

  /** Every key the provider saw has its row, and it saw none twice. */
  ghost predicate Accounted(b: Books) {
    && Unique(b.rows)
    && NoneTwice(b.sent)
    && forall i | 0 <= i < |b.sent| :: Recorded(b.rows, b.sent[i])
  }

  lemma SettlingKeepsKeys(rows: seq<Row>, key: Key, actual: Money, other: Key)
    ensures Recorded(Settle(rows, key, actual), other) <==> Recorded(rows, other)
    ensures Unique(rows) ==> Unique(Settle(rows, key, actual))
  {
    var rows' := Settle(rows, key, actual);
    assert |rows'| == |rows| && forall i | 0 <= i < |rows| :: rows'[i].key == rows[i].key && rows'[i].reserved == rows[i].reserved;
    if i :| 0 <= i < |rows| && rows[i].key == other { assert rows'[i].key == other; }
    if i :| 0 <= i < |rows'| && rows'[i].key == other { assert rows[i].key == other; }
  }

  lemma AppendingRecords(rows: seq<Row>, row: Row, other: Key)
    ensures Recorded(rows + [row], other) <==> Recorded(rows, other) || row.key == other
  {
    if i :| 0 <= i < |rows| && rows[i].key == other { assert (rows + [row])[i].key == other; }
    assert (rows + [row])[|rows|] == row;
    if i :| 0 <= i < |rows + [row]| && (rows + [row])[i].key == other {
      if i < |rows| { assert rows[i].key == other; }
    }
  }

  /** What a ledger gains when one request goes as far as its fate lets it. */
  lemma ReservingRecords(b: Books, a: Attempt)
    requires Unique(b.rows)
    ensures var key, rows := KeyOf(a.request), Send(b, a).0.rows;
            rows != b.rows ==>
              && !Recorded(b.rows, key) && Unique(rows)
              && forall other :: Recorded(rows, other) <==> Recorded(b.rows, other) || other == key
  {
    var key, usd := KeyOf(a.request), Price(a);
    hide Price, KeyOf, Estimate, IndexOf, Spent, Cost;
    if Send(b, a).0.rows != b.rows {
      var row := Row(key, usd, None);
      var reserved := b.rows + [row];
      forall other ensures Recorded(reserved, other) <==> Recorded(b.rows, other) || other == key {
        AppendingRecords(b.rows, row, other);
      }
      AppendingIsUnique(b.rows, row);
      if a.fate.Answers? {
        forall other ensures Recorded(Settle(reserved, key, Cost(a.pricing, a.fate.inputTokens, a.fate.outputTokens)), other)
                        <==> Recorded(reserved, other)
        {
          SettlingKeepsKeys(reserved, key, Cost(a.pricing, a.fate.inputTokens, a.fate.outputTokens), other);
        }
        SettlingKeepsKeys(reserved, key, Cost(a.pricing, a.fate.inputTokens, a.fate.outputTokens), key);
      }
      hide Recorded, Settle, Unique;
    }
  }

  lemma AppendingIsUnique(rows: seq<Row>, row: Row)
    requires Unique(rows)
    ensures !Recorded(rows, row.key) && row.reserved >= 0.0 ==> Unique(rows + [row])
  {
  }

  lemma OneSendIsAccounted(b: Books, a: Attempt)
    requires Accounted(b)
    ensures Accounted(Send(b, a).0)
    ensures forall key :: Recorded(Send(b, a).0.rows, key) ==> Recorded(b.rows, key) || key == KeyOf(a.request)
    ensures Send(b, a).0.sent == b.sent || (Send(b, a).0.sent == b.sent + [KeyOf(a.request)] && !Recorded(b.rows, KeyOf(a.request)))
  {
    ReservingRecords(b, a);
    SendingIsReserved(b, a);
    hide Send, Recorded, Unique, KeyOf;
  }

  lemma SendingIsReserved(b: Books, a: Attempt)
    ensures var b' := Send(b, a).0;
            b'.sent == b.sent || (b'.sent == b.sent + [KeyOf(a.request)] && b'.rows != b.rows)
  {
    hide Price, KeyOf, Estimate, IndexOf, Spent, Cost, Recorded;
  }

  /** At most one paid send per key. However often processes crash and re-render the same request,
      the provider sees each (run, phase, turn, digest) at most once, and never one without a durable
      reservation. */
  lemma {:induction false} AtMostOnce(b: Books, attempts: seq<Attempt>)
    requires Accounted(b)
    ensures Accounted(SendAll(b, attempts))
    decreases |attempts|
  {
    if attempts != [] {
      OneSendIsAccounted(b, attempts[0]);
      AtMostOnce(Send(b, attempts[0]).0, attempts[1..]);
    }
  }

  ghost predicate DistinctRequests(attempts: seq<Attempt>) {
    forall i, j | 0 <= i < j < |attempts| :: KeyOf(attempts[i].request) != KeyOf(attempts[j].request)
  }

  /** A run that never asks the same thing twice is never refused as ambiguous. */
  lemma {:induction false} DistinctRequestsAreNeverAmbiguous(b: Books, attempts: seq<Attempt>, i: nat)
    requires Accounted(b) && DistinctRequests(attempts) && i < |attempts|
    requires forall j | 0 <= j < |attempts| :: !Recorded(b.rows, KeyOf(attempts[j].request))
    ensures Send(SendAll(b, attempts[..i]), attempts[i]).1 != Ambiguous
    decreases i
  {
    if i == 0 {
      assert attempts[..0] == [];
    } else {
      OneSendIsAccounted(b, attempts[0]);
      var rest := attempts[1..];
      assert attempts[..i][0] == attempts[0] && attempts[..i][1..] == rest[..i - 1];
      DistinctRequestsAreNeverAmbiguous(Send(b, attempts[0]).0, rest, i - 1);
    }
  }

  /** The repair of a request has a key of its own exactly when it has something to correct. */
  lemma RepairKeyIsNewExactlyWithErrors(r: Request, errors: string)
    requires r.errors == None
    ensures KeyOf(r.(errors := Some(errors))) != KeyOf(r) <==> errors != ""
  {
    var base := r.system + r.context;
    assert base + "" == base;
    assert |base + errors| == |base| + |errors|;
  }

  /** Requests of one stage of one turn share a key exactly when their whole texts are the same: any change
      of the instructions or the context alone makes a new one, and so does another run, stage or turn. */
  lemma KeysTellRequestsApart(a: Request, b: Request)
    ensures KeyOf(a) == KeyOf(b) ==> a.runId == b.runId && a.phase == b.phase && a.turn == b.turn
    ensures a.(context := b.context) == b ==> (KeyOf(a) == KeyOf(b) <==> a == b)
    ensures a.(system := b.system) == b ==> (KeyOf(a) == KeyOf(b) <==> a == b)
  {
    var tail := ErrorText(a);
    SameTail(a.system + a.context, b.system + b.context, tail);
    SameTail(a.system, b.system, a.context);
    SameHead(a.system, a.context, b.context);
  }

  lemma SameTail(a: string, b: string, tail: string)
    ensures a + tail == b + tail <==> a == b
  {
    if a + tail == b + tail {
      assert |a| == |a + tail| - |tail| == |b + tail| - |tail| == |b|;
      assert a == (a + tail)[..|a|] && b == (b + tail)[..|b|];
    }
  }

  lemma SameHead(head: string, a: string, b: string)
    ensures head + a == head + b <==> a == b
  {
    if head + a == head + b {
      assert a == (head + a)[|head|..] && b == (head + b)[|head|..];
    }
  }

  /** An empty correction of a request that was sent is refused, whatever its fate would have been. */
  lemma EmptyRepairIsAmbiguous(b: Books, a: Attempt, r: Request)
    requires Accounted(b) && r.errors == None && KeyOf(r) in b.sent
    requires a.request == r.(errors := Some("")) && a.credential && !a.fate.DiesUnreserved?
    requires Estimate(r) <= MAX_INPUT_TOKENS && Price(a) >= 0.0 && a.ceiling >= 0.0
    ensures Send(b, a) == (b, Ambiguous)
  {
    RepairKeyIsNewExactlyWithErrors(r, "");
    assert Content(a.request) == Content(r);
  }

  // ---------------------------------------------------------------- sequential spending

  /** What this attempt may bill beyond its reservation. */
  function Excess(a: Attempt): Money {
    if a.fate.Answers? && Cost(a.pricing, a.fate.inputTokens, a.fate.outputTokens) > Price(a) then
      Cost(a.pricing, a.fate.inputTokens, a.fate.outputTokens) - Price(a)
    else 0.0
  }

  lemma OneSendSpends(b: Books, a: Attempt, ceiling: Money, excess: Money)
    requires Unique(b.rows) && a.ceiling <= ceiling && Excess(a) <= excess && excess >= 0.0
    requires Reserved(b.rows) <= Usable(ceiling) && Spent(b.rows) <= Usable(ceiling) + excess
    ensures var rows := Send(b, a).0.rows;
            Unique(rows) && Reserved(rows) <= Usable(ceiling) && Spent(rows) <= Usable(ceiling) + excess
  {
    hide Cost, Estimate, Price, KeyOf, Recorded, IndexOf, Spent, Reserved, Unique;
    var key, usd := KeyOf(a.request), Price(a);
    var act := Reserving(a.ceiling, key, usd);
    OneActIsBounded(b.rows, excess, act, ceiling);
    var (rows, reservation) := Reserve(b.rows, a.ceiling, key, usd);
    if reservation.New? && a.fate.Answers? {
      var bill := Settling(key, Cost(a.pricing, a.fate.inputTokens, a.fate.outputTokens));
      AppendedIsFound(b.rows, Row(key, usd, None));
      OneActIsBounded(rows, 0.0, bill, ceiling);
    }
  }

  lemma AppendedIsFound(rows: seq<Row>, row: Row)
    ensures Recorded(rows + [row], row.key) && IndexOf(rows + [row], row.key) == |rows|
  {
    assert (rows + [row])[|rows|] == row;
  }

  /** Requests sent one after another, each settled at once or never: the accounted total exceeds the
      usable ceiling by at most one request's overrun, however many requests overran. */
  lemma {:induction false} SequentialSpendIsBounded(b: Books, attempts: seq<Attempt>, ceiling: Money, excess: Money)
    requires Unique(b.rows) && excess >= 0.0
    requires forall a | a in attempts :: a.ceiling <= ceiling && Excess(a) <= excess
    requires Reserved(b.rows) <= Usable(ceiling) && Spent(b.rows) <= Usable(ceiling) + excess
    ensures var rows := SendAll(b, attempts).rows;
            Reserved(rows) <= Usable(ceiling) && Spent(rows) <= Usable(ceiling) + excess
    decreases |attempts|
  {
    if attempts != [] {
      OneSendSpends(b, attempts[0], ceiling, excess);
      SequentialSpendIsBounded(Send(b, attempts[0]).0, attempts[1..], ceiling, excess);
    }
  }

  /** A bill within the estimate and the output cap never overruns its reservation. */
  lemma EstimatesCoverTheBill(a: Attempt)
    requires a.pricing.Valid() && a.fate.Answers?
    requires a.fate.inputTokens <= Estimate(a.request) + a.toolTokens && a.fate.outputTokens <= MAX_OUTPUT_TOKENS
    ensures Excess(a) == 0.0
  {
    CostIsMonotone(a.pricing, a.fate.inputTokens, a.fate.outputTokens, Estimate(a.request) + a.toolTokens, MAX_OUTPUT_TOKENS);
    hide Cost, Estimate;
  }

  lemma CostIsMonotone(p: Pricing, input: nat, output: nat, input': nat, output': nat)
    requires p.Valid() && input <= input' && output <= output'
    ensures 0.0 <= Cost(p, input, output) <= Cost(p, input', output')
  {
    Scaling(input, input', p.input);
    Scaling(output, output', p.output);
    var x, y := input as real / 1000000.0 * p.input, output as real / 1000000.0 * p.output;
    var x', y' := input' as real / 1000000.0 * p.input, output' as real / 1000000.0 * p.output;
    assert Cost(p, input, output) == x + y && Cost(p, input', output') == x' + y';
  }

  lemma Scaling(n: nat, m: nat, rate: Money)
    requires n <= m && rate > 0.0
    ensures 0.0 <= n as real / 1000000.0 * rate <= m as real / 1000000.0 * rate
  {
    Times(n as real / 1000000.0, m as real / 1000000.0, rate);
  }

  lemma Times(x: real, y: real, rate: real)
    requires 0.0 <= x <= y && rate > 0.0
    ensures 0.0 <= x * rate <= y * rate
  {
    assert (y - x) * rate >= 0.0;
  }

  // ---------------------------------------------------------------- what one request does

  /** Characters of the text that goes out, with the correction's heading when there is something to
      correct. */
  function TextLength(r: Request): nat {
    |r.system| + |r.context| + if r.errors.Some? && r.errors.value != "" then 23 + |r.errors.value| else 0
  }

  /** Nothing refuses the request: read off the text, the prices and the rows. */
  ghost predicate MayGoOut(b: Books, a: Attempt, price: Money) {
    && a.credential
    && TextLength(a.request) <= 9600
    && price >= 0.0 && a.ceiling >= 0.0
    && (forall row | row in b.rows :: row.key != KeyOf(a.request))
    && Spent(b.rows) + price <= a.ceiling - 0.10
  }

  lemma TextIsCounted(a: Attempt)
    ensures Estimate(a.request) == TextLength(a.request)
    ensures 1000000.0 * Price(a) == (TextLength(a.request) + a.toolTokens) as real * a.pricing.input + 1600.0 * a.pricing.output
  {
    assert |CORRECTION| == 23;
  }

  lemma KeysAreRecordedByRows(rows: seq<Row>, key: Key)
    ensures Recorded(rows, key) <==> exists row :: row in rows && row.key == key
  {
    if i :| 0 <= i < |rows| && rows[i].key == key { assert rows[i] in rows; }
  }

  /** A request the gate refuses, or whose process dies first, leaves no trace. Any other leaves one new
      row, priced for its whole text, the tools sent with it and the longest reply, whether or not it is
      answered; it goes out unless the process dies there; and an answer puts its bill on that row. */
  lemma SendingDoes(b: Books, a: Attempt, price: Money, bill: Money)
    requires 1000000.0 * price == (TextLength(a.request) + a.toolTokens) as real * a.pricing.input + 1600.0 * a.pricing.output
    requires a.fate.Answers? ==>
               1000000.0 * bill == a.fate.inputTokens as real * a.pricing.input + a.fate.outputTokens as real * a.pricing.output
    ensures var (b', o) := Send(b, a);
            if !MayGoOut(b, a, price) || a.fate.DiesUnreserved? then
              && b' == b
              && o in {NoCredential, TooLarge, OverCeiling, Ambiguous, BadLedgerInput, Died}
              && (o == Died ==> a.fate.DiesUnreserved?)
            else
              && b'.rows == b.rows + [Row(KeyOf(a.request), price, if a.fate.Answers? && bill >= 0.0 then Some(bill) else None)]
              && b'.sent == (if a.fate.DiesReserved? then b.sent else b.sent + [KeyOf(a.request)])
              && o == match a.fate
                      case Answers(_, _) => Answered
                      case Breaks => Broken
                      case _ => Died
  {
    TextIsCounted(a);
    KeysAreRecordedByRows(b.rows, KeyOf(a.request));
    assert a.fate.Answers? ==> bill == Cost(a.pricing, a.fate.inputTokens, a.fate.outputTokens);
    var row := Row(KeyOf(a.request), price, None);
    AppendedIsFound(b.rows, row);
    hide Price, Estimate, Cost, KeyOf, Spent, IndexOf;
    assert price == Price(a);
    assert (b.rows + [row])[|b.rows| := row.(actual := Some(bill))] == b.rows + [row.(actual := Some(bill))];
  }

  /** Which refusal it is: no credential before anything else, then the size, then a request that is
      already on the books, then the ceiling. */
  lemma RefusalsInOrder(b: Books, a: Attempt)
    requires a.pricing.Valid() && a.ceiling >= 0.0 && !a.fate.DiesUnreserved?
    ensures var known := exists row :: row in b.rows && row.key == KeyOf(a.request);
            var o := Send(b, a).1;
            && (o == NoCredential <==> !a.credential)
            && (o == TooLarge <==> a.credential && TextLength(a.request) > 9600)
            && (o == Ambiguous <==> a.credential && TextLength(a.request) <= 9600 && known)
            && (o == OverCeiling <==>
                  a.credential && TextLength(a.request) <= 9600 && !known && Spent(b.rows) + Price(a) > a.ceiling - 0.10)
  {
    TextIsCounted(a);
    KeysAreRecordedByRows(b.rows, KeyOf(a.request));
    CostIsMonotone(a.pricing, 0, 0, Estimate(a.request) + a.toolTokens, MAX_OUTPUT_TOKENS);
    hide Estimate, Cost, KeyOf, Spent, IndexOf;
  }

  // ---------------------------------------------------------------- the object

  class LiveModel {
    const ledger: Ledger
    const pricing: Pricing
    const ceiling: Money
    const credential: bool
    var sent: seq<Key>

    constructor (ledger: Ledger, pricing: Pricing, ceiling: Money, credential: bool)
      ensures this.ledger == ledger && this.pricing == pricing && this.ceiling == ceiling && this.credential == credential && sent == []
    {
      this.ledger, this.pricing, this.ceiling, this.credential := ledger, pricing, ceiling, credential;
      sent := [];
    }

    /** `_send`; `fate` is what the process and the provider do to it. */
    method SendOnce(request: Request, toolTokens: nat, fate: Fate) returns (o: Outcome)
      requires ledger.Valid()
      modifies this, ledger
      ensures ledger.Valid()
      ensures (Books(ledger.rows, sent), o)
           == Send(Books(old(ledger.rows), old(sent)), Attempt(credential, pricing, ceiling, request, toolTokens, fate))
    {
      if !credential {
        return NoCredential;
      }
      var content := request.context;
      if request.errors.Some? && request.errors.value != "" {
        content := content + CORRECTION + request.errors.value;
      }
      var estimate := |request.system + content|;
      if estimate > MAX_INPUT_TOKENS {
        return TooLarge;
      }
      if fate.DiesUnreserved? {
        return Died;
      }
      var reservation := ledger.RecordReservation(ceiling, KeyOf(request), Worst(pricing, estimate + toolTokens));
      if reservation.Malformed? {
        return BadLedgerInput;
      }
      if reservation.CeilingExceeded? {
        return OverCeiling;
      }
      if reservation.Existing? {
        return Ambiguous;
      }
      if fate.DiesReserved? {
        return Died;
      }
      sent := sent + [KeyOf(request)];
      if fate.Breaks? {
        return Broken;
      }
      var settled := ledger.SettleReservation(KeyOf(request), Cost(pricing, fate.inputTokens, fate.outputTokens));
      return Answered;
    }
  }
}

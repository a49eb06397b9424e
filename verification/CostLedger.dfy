/** The application-wide cost ledger (`cost_ledger.py`): reserve before sending, settle after. */
module CostLedger {
  import opened Wrappers
  import opened Text

  type Money = real

  const BUFFER: Money := 0.10

  /** The idempotency key of one model request. */
  datatype Key = Key(runId: string, phase: string, turn: int, digest: Digest)

  /** `actual` is None while the row is RESERVED. */
  datatype Row = Row(key: Key, reserved: Money, actual: Option<Money>)

  function Counted(row: Row): Money {
    if row.actual.Some? && row.actual.value > row.reserved then row.actual.value else row.reserved
  }

  /** `_reserved_and_settled_total` */
  function Spent(rows: seq<Row>): Money {
    if rows == [] then 0.0 else Spent(rows[..|rows| - 1]) + Counted(rows[|rows| - 1])
  }

  function Reserved(rows: seq<Row>): Money {
    if rows == [] then 0.0 else Reserved(rows[..|rows| - 1]) + rows[|rows| - 1].reserved
  }

  predicate Recorded(rows: seq<Row>, key: Key) {
    exists i :: 0 <= i < |rows| && rows[i].key == key
  }

  ghost predicate Unique(rows: seq<Row>) {
    && (forall i, j | 0 <= i < j < |rows| :: rows[i].key != rows[j].key)
    && (forall i | 0 <= i < |rows| :: rows[i].reserved >= 0.0)
  }

  function IndexOf(rows: seq<Row>, key: Key): (i: nat)
    requires Recorded(rows, key)
    ensures i < |rows| && rows[i].key == key
  {
    if rows[|rows| - 1].key == key then |rows| - 1 else IndexOf(rows[..|rows| - 1], key)
  }

  datatype Reservation =
    | New(row: Row)
    | Existing(row: Row)
    | CeilingExceeded(remaining: Money)
    | Malformed

  /** `record_reservation_before_request` */
  function Reserve(rows: seq<Row>, ceiling: Money, key: Key, usd: Money): (seq<Row>, Reservation) {
    if usd < 0.0 || ceiling < 0.0 then (rows, Malformed)
    else if Recorded(rows, key) then (rows, Existing(rows[IndexOf(rows, key)]))
    else
      var remaining := ceiling - BUFFER - Spent(rows);
      if usd > remaining then (rows, CeilingExceeded(if remaining > 0.0 then remaining else 0.0))
      else (rows + [Row(key, usd, None)], New(Row(key, usd, None)))
  }

  predicate Settleable(rows: seq<Row>, key: Key) {
    Recorded(rows, key) && rows[IndexOf(rows, key)].actual.None?
  }

  /** `settle_reservation`: only ever an update of a RESERVED row. */
  function Settle(rows: seq<Row>, key: Key, actual: Money): seq<Row> {
    if actual < 0.0 || !Settleable(rows, key) then rows
    else
      var i := IndexOf(rows, key);
      rows[i := rows[i].(actual := Some(actual))]
  }

  // ---------------------------------------------------------------- sums

  lemma {:induction false} SpentAfterUpdate(rows: seq<Row>, i: nat, row: Row)
    requires i < |rows|
    ensures Spent(rows[i := row]) == Spent(rows) - Counted(rows[i]) + Counted(row)
    ensures Reserved(rows[i := row]) == Reserved(rows) - rows[i].reserved + row.reserved
  {
    var last := |rows| - 1;
    if i == last {
      assert rows[i := row][..last] == rows[..last];
    } else {
      SpentAfterUpdate(rows[..last], i, row);
      assert rows[i := row][..last] == rows[..last][i := row];
    }
  }

  lemma SpentAfterAppend(rows: seq<Row>, row: Row)
    ensures Spent(rows + [row]) == Spent(rows) + Counted(row)
    ensures Reserved(rows + [row]) == Reserved(rows) + row.reserved
  {
    assert (rows + [row])[..|rows|] == rows;
  }

  lemma {:induction false} SpentCoversReserved(rows: seq<Row>)
    ensures Reserved(rows) <= Spent(rows)
  {
    if rows != [] { SpentCoversReserved(rows[..|rows| - 1]); }
  }

  // ---------------------------------------------------------------- any run of the ledger

  /** Reservations and settlements in any order, by anyone; each caller brings its own ceiling. */
  datatype Act =
    | Reserving(ceiling: Money, key: Key, usd: Money)
    | Settling(key: Key, actual: Money)

  function Apply(rows: seq<Row>, act: Act): seq<Row> {
    match act
    case Reserving(ceiling, key, usd) => Reserve(rows, ceiling, key, usd).0
    case Settling(key, actual) => Settle(rows, key, actual)
  }

  /** How far a settlement goes over what was reserved. */
  function Overrun(rows: seq<Row>, act: Act): Money {
    if act.Settling? && act.actual >= 0.0 && Settleable(rows, act.key)
       && act.actual > rows[IndexOf(rows, act.key)].reserved
    then act.actual - rows[IndexOf(rows, act.key)].reserved
    else 0.0
  }

  /** The overruns settled since the last reservation that was granted. */
  function Slack(rows: seq<Row>, slack: Money, act: Act): Money {
    if act.Reserving? && Reserve(rows, act.ceiling, act.key, act.usd).1.New? then 0.0 else slack + Overrun(rows, act)
  }

  function RunAll(rows: seq<Row>, slack: Money, acts: seq<Act>): (seq<Row>, Money)
    decreases |acts|
  {
    if acts == [] then (rows, slack)
    else RunAll(Apply(rows, acts[0]), Slack(rows, slack, acts[0]), acts[1..])
  }

  function Usable(ceiling: Money): Money {
    if ceiling > BUFFER then ceiling - BUFFER else 0.0
  }

  ghost predicate WithinCeiling(acts: seq<Act>, ceiling: Money) {
    forall act | act in acts && act.Reserving? :: act.ceiling <= ceiling
  }

  lemma OneActIsBounded(rows: seq<Row>, slack: Money, act: Act, ceiling: Money)
    requires Unique(rows) && slack >= 0.0 && (act.Reserving? ==> act.ceiling <= ceiling)
    requires Reserved(rows) <= Usable(ceiling) && Spent(rows) <= Usable(ceiling) + slack
    ensures Unique(Apply(rows, act)) && Slack(rows, slack, act) >= 0.0
    ensures Reserved(Apply(rows, act)) <= Usable(ceiling)
    ensures Spent(Apply(rows, act)) <= Usable(ceiling) + Slack(rows, slack, act)
    ensures Spent(rows) <= Spent(Apply(rows, act))
  {
    hide Spent, Reserved, IndexOf;
    SpentCoversReserved(rows);
    match act {
      case Reserving(_, key, usd) =>
        SpentAfterAppend(rows, Row(key, usd, None));
      case Settling(key, actual) =>
        if actual >= 0.0 && Settleable(rows, key) {
          var i := IndexOf(rows, key);
          SpentAfterUpdate(rows, i, rows[i].(actual := Some(actual)));
        }
    }
  }

  /** The spend bound. Whatever is reserved and settled, in whatever order, under ceilings of at
      most `ceiling`: the reservations together stay under the ceiling less its buffer, the accounted
      total never shrinks, and it exceeds that bound by at most the overruns settled since the last
      granted reservation. */
  lemma {:induction false} SpendIsBounded(rows: seq<Row>, slack: Money, acts: seq<Act>, ceiling: Money)
    requires Unique(rows) && slack >= 0.0 && WithinCeiling(acts, ceiling)
    requires Reserved(rows) <= Usable(ceiling) && Spent(rows) <= Usable(ceiling) + slack
    ensures var (rows', slack') := RunAll(rows, slack, acts);
            && Unique(rows') && slack' >= 0.0
            && Reserved(rows') <= Usable(ceiling)
            && Spent(rows') <= Usable(ceiling) + slack'
            && Spent(rows) <= Spent(rows')
    decreases |acts|
  {
    if acts != [] {
      OneActIsBounded(rows, slack, acts[0], ceiling);
      SpendIsBounded(Apply(rows, acts[0]), Slack(rows, slack, acts[0]), acts[1..], ceiling);
    }
  }

  /** From an empty ledger. */
  lemma SpendIsBoundedFromTheStart(acts: seq<Act>, ceiling: Money)
    requires WithinCeiling(acts, ceiling)
    ensures var (rows, slack) := RunAll([], 0.0, acts);
            Reserved(rows) <= Usable(ceiling) && Spent(rows) <= Usable(ceiling) + slack
  {
    SpendIsBounded([], 0.0, acts, ceiling);
  }

  // ---------------------------------------------------------------- what the total is worth

  /** What the provider has billed for, on settled rows. */
  function BilledOnSettled(rows: seq<Row>): Money {
    if rows == [] then 0.0
    else
      var last := rows[|rows| - 1];
      BilledOnSettled(rows[..|rows| - 1]) + if last.actual.Some? then last.actual.value else 0.0
  }

  /** What requests in flight may still be billed for. */
  function ReservedOnOpen(rows: seq<Row>): Money {
    if rows == [] then 0.0
    else
      var last := rows[|rows| - 1];
      ReservedOnOpen(rows[..|rows| - 1]) + if last.actual.None? then last.reserved else 0.0
  }

  /** The accounted total hides nothing: neither a bill nor a request in flight nor a reservation. */
  lemma {:induction false} TotalCoversBills(rows: seq<Row>)
    ensures Spent(rows) >= BilledOnSettled(rows) + ReservedOnOpen(rows)
    ensures Spent(rows) >= Reserved(rows)
  {
    SpentCoversReserved(rows);
    if rows != [] { TotalCoversBills(rows[..|rows| - 1]); }
  }

  /** And it holds nothing else: a granted reservation raises it by what was asked, a settlement by
      the overrun, and whatever is refused by nothing. */
  lemma TotalMovesExactly(rows: seq<Row>, act: Act)
    ensures act.Reserving? && Reserve(rows, act.ceiling, act.key, act.usd).1.New? ==>
              Spent(Apply(rows, act)) == Spent(rows) + act.usd
    ensures act.Reserving? && !Reserve(rows, act.ceiling, act.key, act.usd).1.New? ==> Apply(rows, act) == rows
    ensures act.Settling? ==> Spent(Apply(rows, act)) == Spent(rows) + Overrun(rows, act)
  {
    match act {
      case Reserving(_, key, usd) => SpentAfterAppend(rows, Row(key, usd, None));
      case Settling(key, actual) =>
        if actual >= 0.0 && Settleable(rows, key) {
          var i := IndexOf(rows, key);
          SpentAfterUpdate(rows, i, rows[i].(actual := Some(actual)));
        }
    }
  }

  /** A new request is granted exactly when it fits beside everything counted so far, buffer kept
      back; then bills and requests in flight together stay under the ceiling less its buffer. A
      refusal names the most that would have been granted, nothing if the ceiling is used up. */
  lemma GrantedExactlyWhenItFits(rows: seq<Row>, ceiling: Money, key: Key, usd: Money)
    requires usd >= 0.0 && ceiling >= 0.0 && !Recorded(rows, key)
    ensures var (rows', r) := Reserve(rows, ceiling, key, usd);
            && (r.New? <==> Spent(rows) + usd + BUFFER <= ceiling)
            && (r.New? ==> rows' == rows + [Row(key, usd, None)]
                           && BilledOnSettled(rows') + ReservedOnOpen(rows') <= ceiling - BUFFER)
            && (!r.New? ==> r.CeilingExceeded? && r.remaining >= 0.0
                            && forall less: Money | less > 0.0 ::
                                 Reserve(rows, ceiling, key, less).1.New? <==> less <= r.remaining)
  {
    var row := Row(key, usd, None);
    SpentAfterAppend(rows, row);
    TotalCoversBills(rows + [row]);
    hide Spent, Recorded, IndexOf;
  }

  /** A settlement leaves its bill on the row, once: later ones change nothing. */
  lemma SettlementSticks(rows: seq<Row>, key: Key, actual: Money, again: Money)
    requires actual >= 0.0 && Settleable(rows, key)
    ensures var rows', i := Settle(rows, key, actual), IndexOf(rows, key);
            && rows' == rows[i := rows[i].(actual := Some(actual))]
            && BilledOnSettled(rows') == BilledOnSettled(rows) + actual
            && ReservedOnOpen(rows') == ReservedOnOpen(rows) - rows[i].reserved
            && (Unique(rows) ==> Settle(rows', key, again) == rows')
  {
    var i := IndexOf(rows, key);
    var row := rows[i].(actual := Some(actual));
    BillsAfterUpdate(rows, i, row);
    if Unique(rows) { KeyIsFoundAgain(rows, rows[i := row], i, key); }
  }

  lemma {:induction false} BillsAfterUpdate(rows: seq<Row>, i: nat, row: Row)
    requires i < |rows| && rows[i].actual.None? && row.actual.Some?
    ensures BilledOnSettled(rows[i := row]) == BilledOnSettled(rows) + row.actual.value
    ensures ReservedOnOpen(rows[i := row]) == ReservedOnOpen(rows) - rows[i].reserved
  {
    var last := |rows| - 1;
    if i == last {
      assert rows[i := row][..last] == rows[..last];
    } else {
      BillsAfterUpdate(rows[..last], i, row);
      assert rows[i := row][..last] == rows[..last][i := row];
    }
  }

  lemma KeyIsFoundAgain(rows: seq<Row>, rows': seq<Row>, i: nat, key: Key)
    requires Unique(rows) && i < |rows| == |rows'| && rows[i].key == key == rows'[i].key
    requires forall j | 0 <= j < |rows| :: rows'[j].key == rows[j].key
    ensures Recorded(rows', key) && IndexOf(rows', key) == i
  {
    assert rows'[i].key == key;
    var j := IndexOf(rows', key);
    assert rows'[j].key == key;
    assert rows[j].key == rows[i].key;
  }

  // ---------------------------------------------------------------- the table

  class Ledger {
    var rows: seq<Row>

    ghost predicate Valid()
      reads this
    {
      Unique(rows)
    }

    constructor ()
      ensures Valid() && rows == []
    {
      rows := [];
    }

    /** `_reserved_and_settled_total`: one fetch, then a loop. */
    method Total() returns (total: Money)
      ensures total == Spent(rows)
    {
      total := 0.0;
      for i := 0 to |rows|
        invariant total == Spent(rows[..i])
      {
        assert rows[..i + 1][..i] == rows[..i];
        if rows[i].actual.Some? && rows[i].actual.value > rows[i].reserved {
          total := total + rows[i].actual.value;
        } else {
          total := total + rows[i].reserved;
        }
      }
      assert rows[..|rows|] == rows;
    }

    /** `run_cost_totals`: (reserved, actual, fully settled) of one run. */
    method RunTotals(runId: string) returns (reserved: Money, actual: Money, settled: bool)
      ensures reserved == Reserved(OfRun(rows, runId))
      ensures actual == Reserved(Settled(OfRun(rows, runId)))
      ensures settled <==> forall i | 0 <= i < |rows| && rows[i].key.runId == runId :: rows[i].actual.Some?
    {
      reserved, actual, settled := 0.0, 0.0, true;
      for i := 0 to |rows|
        invariant reserved == Reserved(OfRun(rows[..i], runId))
        invariant settled <==> forall j | 0 <= j < i && rows[j].key.runId == runId :: rows[j].actual.Some?
        invariant actual == Reserved(Settled(OfRun(rows[..i], runId)))
      {
        OneMoreRow(rows, i, runId);
        if rows[i].key.runId == runId {
          reserved := reserved + rows[i].reserved;
          if rows[i].actual.Some? {
            actual := actual + rows[i].actual.value;
          } else {
            settled := false;
          }
        }
      }
      assert rows[..|rows|] == rows;
    }

    method RecordReservation(ceiling: Money, key: Key, usd: Money) returns (r: Reservation)
      requires Valid()
      modifies this
      ensures Valid()
      ensures (rows, r) == Reserve(old(rows), ceiling, key, usd)
    {
      if usd < 0.0 || ceiling < 0.0 {
        return Malformed;
      }
      if Recorded(rows, key) {
        return Existing(rows[IndexOf(rows, key)]);
      }
      var spent := Total();
      var remaining := ceiling - BUFFER - spent;
      if usd > remaining {
        return CeilingExceeded(if remaining > 0.0 then remaining else 0.0);
      }
      rows := rows + [Row(key, usd, None)];
      return New(Row(key, usd, None));
    }

    method SettleReservation(key: Key, actual: Money) returns (ok: bool)
      requires Valid()
      modifies this
      ensures Valid()
      ensures rows == Settle(old(rows), key, actual)
      ensures ok <==> actual >= 0.0 && Settleable(old(rows), key)
    {
      if actual < 0.0 || !Settleable(rows, key) {
        return false;
      }
      var i := IndexOf(rows, key);
      rows := rows[i := rows[i].(actual := Some(actual))];
      return true;
    }
  }

  function OfRun(rows: seq<Row>, runId: string): seq<Row> {
    if rows == [] then []
    else OfRun(rows[..|rows| - 1], runId) + if rows[|rows| - 1].key.runId == runId then [rows[|rows| - 1]] else []
  }

  /** A settled row, as what it really cost. */
  function Billed(row: Row): Row {
    row.(reserved := if row.actual.Some? then row.actual.value else 0.0)
  }

  function Settled(rows: seq<Row>): seq<Row> {
    if rows == [] then []
    else Settled(rows[..|rows| - 1]) + if rows[|rows| - 1].actual.Some? then [Billed(rows[|rows| - 1])] else []
  }

  lemma OneMoreRow(rows: seq<Row>, i: nat, runId: string)
    requires i < |rows|
    ensures var before, after := OfRun(rows[..i], runId), OfRun(rows[..i + 1], runId);
            var mine := rows[i].key.runId == runId;
            && Reserved(after) == Reserved(before) + (if mine then rows[i].reserved else 0.0)
            && Reserved(Settled(after)) ==
                 Reserved(Settled(before)) + (if mine && rows[i].actual.Some? then rows[i].actual.value else 0.0)
  {
    assert rows[..i + 1][..i] == rows[..i];
    var before := OfRun(rows[..i], runId);
    assert before + [] == before && Settled(before) + [] == Settled(before);
    if rows[i].key.runId == runId {
      SpentAfterAppend(before, rows[i]);
      SettledAppends(before, rows[i]);
      if rows[i].actual.Some? { SpentAfterAppend(Settled(before), Billed(rows[i])); }
    }
  }

  lemma SettledAppends(rows: seq<Row>, row: Row)
    ensures Settled(rows + [row]) == Settled(rows) + if row.actual.Some? then [Billed(row)] else []
  {
    assert (rows + [row])[..|rows|] == rows;
  }

  // ---------------------------------------------------------------- runs and the whole

  ghost predicate EachOnce(runs: seq<string>) {
    forall i, j | 0 <= i < j < |runs| :: runs[i] != runs[j]
  }

  /** What these runs reserved and were billed, together. */
  function OverRuns(rows: seq<Row>, runs: seq<string>): (Money, Money) {
    if runs == [] then (0.0, 0.0)
    else
      var mine, rest := OfRun(rows, runs[0]), OverRuns(rows, runs[1..]);
      (Reserved(mine) + rest.0, Reserved(Settled(mine)) + rest.1)
  }

  lemma {:induction false} OneRowInOneRun(rows: seq<Row>, row: Row, runs: seq<string>)
    requires EachOnce(runs)
    ensures var before, after := OverRuns(rows, runs), OverRuns(rows + [row], runs);
            var mine := row.key.runId in runs;
            && after.0 == before.0 + (if mine then row.reserved else 0.0)
            && after.1 == before.1 + (if mine && row.actual.Some? then row.actual.value else 0.0)
  {
    if runs != [] {
      var all := rows + [row];
      assert all[..|rows|] == rows && all[..|all|] == all;
      OneMoreRow(all, |rows|, runs[0]);
      OneRowInOneRun(rows, row, runs[1..]);
      assert row.key.runId in runs <==> row.key.runId == runs[0] || row.key.runId in runs[1..];
    }
  }

  lemma {:induction false} NothingOverRuns(runs: seq<string>)
    ensures OverRuns([], runs) == (0.0, 0.0)
  {
    if runs != [] { NothingOverRuns(runs[1..]); }
  }

  lemma OneMoreAddsUp(before: seq<Row>, row: Row, runs: seq<string>)
    requires EachOnce(runs) && row.key.runId in runs && OverRuns(before, runs) == (Reserved(before), BilledOnSettled(before))
    ensures OverRuns(before + [row], runs) == (Reserved(before + [row]), BilledOnSettled(before + [row]))
  {
    SumsOfLonger(before, row);
    hide *;
    OneRowInOneRun(before, row, runs);
  }

  lemma SumsOfLonger(before: seq<Row>, row: Row)
    ensures Reserved(before + [row]) == Reserved(before) + row.reserved
    ensures BilledOnSettled(before + [row]) == BilledOnSettled(before) + if row.actual.Some? then row.actual.value else 0.0
  {
    assert (before + [row])[..|before|] == before;
  }

  /** Every reservation and every bill is in the totals of exactly one run: over all runs, they add up to
      the whole ledger. */
  lemma {:induction false} RunsAddUp(rows: seq<Row>, runs: seq<string>)
    requires EachOnce(runs) && forall i | 0 <= i < |rows| :: rows[i].key.runId in runs
    ensures OverRuns(rows, runs) == (Reserved(rows), BilledOnSettled(rows))
  {
    hide OverRuns, EachOnce;
    if rows == [] {
      NothingOverRuns(runs);
    } else {
      RunsAddUp(rows[..|rows| - 1], runs);
      OneMoreAddsUp(rows[..|rows| - 1], rows[|rows| - 1], runs);
      assert rows == rows[..|rows| - 1] + [rows[|rows| - 1]];
    }
  }
}

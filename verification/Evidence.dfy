/** One incident's evidence and the part of it the model is shown (`evidence.py`). */
module Evidence {
  import opened Wrappers

  /** In the order of their names, which is how Python compares the enum's members. */
  datatype Kind = Change | Log | Metric | Symptom | Topology

  const KINDS: seq<Kind> := [Change, Log, Metric, Symptom, Topology]

  datatype Record = Record(id: string, incident: string, observedAt: real, kind: Kind)

  function Rank(k: Kind): nat {
    match k
    case Change => 0
    case Log => 1
    case Metric => 2
    case Symptom => 3
    case Topology => 4
  }

  /** Python's order on strings. */
  predicate TextBefore(a: string, b: string) {
    if b == "" then false
    else if a == "" then true
    else if a[0] != b[0] then a[0] < b[0]
    else TextBefore(a[1..], b[1..])
  }

  /** The sort key (observed_at, kind, evidence_id). */
  predicate Before(a: Record, b: Record) {
    if a.observedAt != b.observedAt then a.observedAt < b.observedAt
    else if a.kind != b.kind then Rank(a.kind) < Rank(b.kind)
    else TextBefore(a.id, b.id)
  }

  lemma {:induction false} TextOrderIsTotal(a: string, b: string)
    ensures TextBefore(a, b) || TextBefore(b, a) || a == b
    ensures !(TextBefore(a, b) && TextBefore(b, a)) && !TextBefore(a, a)
  {
    if a != "" && b != "" && a[0] == b[0] {
      TextOrderIsTotal(a[1..], b[1..]);
      if a[1..] == b[1..] { assert a == [a[0]] + a[1..] && b == [b[0]] + b[1..]; }
    }
    if a != "" { TextIsNotBeforeItself(a); }
  }

  lemma {:induction false} TextIsNotBeforeItself(a: string)
    ensures !TextBefore(a, a)
  {
    if a != "" { TextIsNotBeforeItself(a[1..]); }
  }

  lemma {:induction false} TextOrderIsTransitive(a: string, b: string, c: string)
    requires TextBefore(a, b) && TextBefore(b, c)
    ensures TextBefore(a, c)
  {
    if a != "" && a[0] == b[0] == c[0] {
      TextOrderIsTransitive(a[1..], b[1..], c[1..]);
    }
  }

  lemma BeforeIsTransitive(a: Record, b: Record, c: Record)
    requires Before(a, b) && Before(b, c)
    ensures Before(a, c)
  {
    if a.id != "" || b.id != "" {
      if TextBefore(a.id, b.id) && TextBefore(b.id, c.id) { TextOrderIsTransitive(a.id, b.id, c.id); }
    }
  }

  lemma BeforeIsTotal(a: Record, b: Record)
    ensures Before(a, b) || Before(b, a) || a.id == b.id
    ensures !(Before(a, b) && Before(b, a))
  {
    TextOrderIsTotal(a.id, b.id);
  }

  // ---------------------------------------------------------------- the store

  ghost predicate Identified(records: seq<Record>) {
    forall i, j | 0 <= i < j < |records| :: records[i].id != records[j].id
  }

  /** `records[evidence_id] = evidence`: a known id keeps its place. */
  function Stored(records: seq<Record>, r: Record): seq<Record> {
    if records == [] then [r]
    else if records[0].id == r.id then [r] + records[1..]
    else [records[0]] + Stored(records[1..], r)
  }

  function Inserted(sorted: seq<Record>, r: Record): seq<Record> {
    if sorted == [] then [r]
    else if Before(r, sorted[0]) then [r] + sorted
    else [sorted[0]] + Inserted(sorted[1..], r)
  }

  /** `ordered` */
  function Ordered(records: seq<Record>): seq<Record> {
    if records == [] then [] else Inserted(Ordered(records[1..]), records[0])
  }

  ghost predicate Ascending(s: seq<Record>) {
    forall i, j | 0 <= i < j < |s| :: Before(s[i], s[j])
  }

  lemma {:induction false} InsertingKeepsMembers(sorted: seq<Record>, r: Record)
    ensures multiset(Inserted(sorted, r)) == multiset(sorted) + multiset{r}
    ensures |Inserted(sorted, r)| == |sorted| + 1
  {
    if sorted != [] && !Before(r, sorted[0]) {
      InsertingKeepsMembers(sorted[1..], r);
      assert sorted == [sorted[0]] + sorted[1..];
    }
  }

  lemma {:induction false} InsertingKeepsAscending(sorted: seq<Record>, r: Record)
    requires Ascending(sorted) && forall s | s in sorted :: s.id != r.id
    ensures Ascending(Inserted(sorted, r))
  {
    if sorted != [] {
      var first, rest := sorted[0], sorted[1..];
      assert first in sorted;
      BeforeIsTotal(r, first);
      if Before(r, first) {
        var all := [r] + sorted;
        forall i, j | 0 <= i < j < |all| ensures Before(all[i], all[j]) {
          if i == 0 && j > 1 { BeforeIsTransitive(r, first, sorted[j - 1]); }
        }
      } else {
        assert Ascending(rest) by { forall i, j | 0 <= i < j < |rest| ensures Before(rest[i], rest[j]) { assert Before(sorted[i + 1], sorted[j + 1]); } }
        InsertingKeepsAscending(rest, r);
        InsertingKeepsMembers(rest, r);
        var tail := Inserted(rest, r);
        forall t | t in tail ensures Before(first, t) {
          assert t in multiset(tail);
          if t != r {
            assert t in multiset(rest);
            var k :| 0 <= k < |rest| && rest[k] == t;
            assert Before(sorted[0], sorted[k + 1]);
          }
        }
        var all := [first] + tail;
        forall i, j | 0 <= i < j < |all| ensures Before(all[i], all[j]) {
          if i > 0 { assert Before(tail[i - 1], tail[j - 1]); } else { assert tail[j - 1] in tail; }
        }
      }
    }
  }

  lemma NothingAscends()
    ensures Ascending([])
  {
  }

  /** `ordered` is a sort: the same records, each strictly before the next. */
  lemma {:induction false} OrderedSorts(records: seq<Record>)
    requires Identified(records)
    ensures Ascending(Ordered(records)) && multiset(Ordered(records)) == multiset(records)
    ensures |Ordered(records)| == |records|
  {
    hide Before, Ascending, Inserted;
    if records == [] {
      NothingAscends();
    } else {
      var rest := records[1..];
      TailIsIdentified(records);
      OrderedSorts(rest);
      hide Identified;
      forall s | s in Ordered(rest) ensures s.id != records[0].id {
        assert s in multiset(Ordered(rest));
        assert s in multiset(rest);
        assert s in rest;
      }
      InsertingKeepsAscending(Ordered(rest), records[0]);
      InsertingKeepsMembers(Ordered(rest), records[0]);
      assert records == [records[0]] + rest;
    }
  }

  /** There is one way to sort a given collection of records. */
  lemma {:induction false} SortingIsUnique(a: seq<Record>, b: seq<Record>)
    requires Ascending(a) && Ascending(b) && multiset(a) == multiset(b)
    ensures a == b
  {
    assert |a| == |multiset(a)| == |multiset(b)| == |b|;
    if a != [] {
      SmallestsAreEqual(a, b);
      assert a == [a[0]] + a[1..] && b == [b[0]] + b[1..];
      assert multiset(a[1..]) == multiset(a) - multiset{a[0]} == multiset(b[1..]);
      TailAscends(a);
      TailAscends(b);
      hide Ascending;
      SortingIsUnique(a[1..], b[1..]);
    }
  }

  lemma SmallestsAreEqual(a: seq<Record>, b: seq<Record>)
    requires Ascending(a) && Ascending(b) && multiset(a) == multiset(b) && a != [] && b != []
    ensures a[0] == b[0]
  {
    hide Before;
    if a[0] != b[0] {
      assert a[0] in multiset(a) && b[0] in multiset(b);
      var i :| 0 <= i < |b| && b[i] == a[0];
      var j :| 0 <= j < |a| && a[j] == b[0];
      assert Before(b[0], b[i]) && Before(a[0], a[j]);
      BeforeIsTotal(a[0], b[0]);
      assert false;
    }
  }

  lemma TailAscends(s: seq<Record>)
    requires Ascending(s) && s != []
    ensures Ascending(s[1..])
  {
    forall i, j | 0 <= i < j < |s[1..]| ensures Before(s[1..][i], s[1..][j]) {
      assert Before(s[i + 1], s[j + 1]);
    }
  }

  // ---------------------------------------------------------------- citations

  /** `unknown_ids`: the cited ids that nobody retrieved. */
  function UnknownOf(cited: seq<string>, ids: seq<string>): seq<string> {
    if cited == [] then []
    else UnknownOf(cited[..|cited| - 1], ids) + if cited[|cited| - 1] in ids then [] else [cited[|cited| - 1]]
  }

  lemma {:induction false} UnknownAreTheUncited(cited: seq<string>, ids: seq<string>)
    ensures UnknownOf(cited, ids) == [] <==> forall id | id in cited :: id in ids
    ensures forall id | id in UnknownOf(cited, ids) :: id in cited && id !in ids
  {
    if cited != [] {
      UnknownAreTheUncited(cited[..|cited| - 1], ids);
    }
  }

  /** Each citation is judged by itself, and the unknown ones stay in order. */
  lemma {:induction false} UnknownStayInOrder(cited: seq<string>, more: seq<string>, ids: seq<string>, id: string)
    ensures UnknownOf(cited + more, ids) == UnknownOf(cited, ids) + UnknownOf(more, ids)
    ensures UnknownOf([id], ids) == if id in ids then [] else [id]
  {
    assert [id][..0] == [];
    if more == [] {
      assert cited + more == cited;
    } else {
      var n := |more| - 1;
      assert (cited + more)[..|cited + more| - 1] == cited + more[..n];
      UnknownStayInOrder(cited, more[..n], ids, id);
    }
  }

  // ---------------------------------------------------------------- quotas

  /** `derive_context_quotas` */
  function QuotaFor(executedTools: int): Kind -> int {
    (k: Kind) => if k == Symptom || k == Topology then 2 else executedTools + 1
  }

  function OfKind(s: seq<Record>, k: Kind): seq<Record> {
    if s == [] then []
    else OfKind(s[..|s| - 1], k) + if s[|s| - 1].kind == k then [s[|s| - 1]] else []
  }

  /** The records the model is shown: a record stays while its kind's quota is not used up. */
  function Kept(s: seq<Record>, quota: Kind -> int): seq<Record> {
    if s == [] then []
    else
      var kept, last := Kept(s[..|s| - 1], quota), s[|s| - 1];
      if |OfKind(kept, last.kind)| < quota(last.kind) then kept + [last] else kept
  }

  lemma NoneOfAnyKind()
    ensures forall k :: OfKind([], k) == []
  {
  }

  /** One marker for each kind that lost records, in the order of the kinds. */
  function Markers(dropped: map<Kind, nat>, kinds: seq<Kind>): seq<(Kind, nat)> {
    if kinds == [] then []
    else (if kinds[0] in dropped then [(kinds[0], dropped[kinds[0]])] else []) + Markers(dropped, kinds[1..])
  }

  function DroppedOf(s: seq<Record>, quota: Kind -> int): map<Kind, nat> {
    if s == [] then map[]
    else
      var before, last := DroppedOf(s[..|s| - 1], quota), s[|s| - 1];
      if |OfKind(Kept(s[..|s| - 1], quota), last.kind)| < quota(last.kind) then before
      else before[last.kind := (if last.kind in before then before[last.kind] else 0) + 1]
  }

  class EvidenceStore {
    const incident: string
    var records: seq<Record>

    ghost predicate Valid()
      reads this
    {
      Identified(records) && forall r | r in records :: r.incident == incident
    }

    constructor (incident: string)
      ensures Valid() && this.incident == incident && records == []
    {
      this.incident := incident;
      records := [];
    }

    /** `add`: evidence of another incident is refused. */
    method Add(r: Record) returns (ok: bool)
      requires Valid()
      modifies this
      ensures Valid()
      ensures ok <==> r.incident == incident
      ensures records == if ok then Stored(old(records), r) else old(records)
    {
      if r.incident != incident {
        return false;
      }
      StoringIdentifies(records, r);
      records := Stored(records, r);
      return true;
    }

    /** `context_evidence` */
    method ContextEvidence(quota: Kind -> int) returns (kept: seq<Record>, markers: seq<(Kind, nat)>)
      requires Valid()
      ensures kept == Kept(Ordered(records), quota)
      ensures markers == Markers(DroppedOf(Ordered(records), quota), KINDS)
    {
      hide Ordered, Markers, OfKind;
      var all := Ordered(records);
      kept := [];
      NoneOfAnyKind();
      var used: map<Kind, nat> := map[];
      var dropped: map<Kind, nat> := map[];
      for i := 0 to |all|
        invariant kept == Kept(all[..i], quota)
        invariant forall k :: |OfKind(kept, k)| == if k in used then used[k] else 0
        invariant dropped == DroppedOf(all[..i], quota)
      {
        hide Kept, DroppedOf;
        OneMoreRecord(all, i, quota);
        CountsAfter(kept, all[i]);
        var record := all[i];
        var seen := if record.kind in used then used[record.kind] else 0;
        if seen < quota(record.kind) {
          kept := kept + [record];
          used := used[record.kind := seen + 1];
        } else {
          dropped := dropped[record.kind := (if record.kind in dropped then dropped[record.kind] else 0) + 1];
        }
      }
      assert all[..|all|] == all;
      markers := Markers(dropped, KINDS);
    }

    function Ids(): seq<string>
      reads this
    {
      seq(|records|, i requires 0 <= i < |records| reads this => records[i].id)
    }

    method UnknownIds(cited: seq<string>) returns (unknown: seq<string>)
      requires Valid()
      ensures unknown == UnknownOf(cited, Ids())
    {
      unknown := [];
      for i := 0 to |cited|
        invariant unknown == UnknownOf(cited[..i], Ids())
      {
        assert cited[..i + 1][..i] == cited[..i];
        if !exists j :: 0 <= j < |records| && records[j].id == cited[i] {
          assert cited[i] !in Ids();
          unknown := unknown + [cited[i]];
        } else {
          var j :| 0 <= j < |records| && records[j].id == cited[i];
          assert Ids()[j] == cited[i];
          assert unknown + [] == unknown;
        }
      }
      assert cited[..|cited|] == cited;
    }
  }

  lemma OneMoreRecord(all: seq<Record>, i: nat, quota: Kind -> int)
    requires i < |all|
    ensures var kept, dropped, r := Kept(all[..i], quota), DroppedOf(all[..i], quota), all[i];
            if |OfKind(kept, r.kind)| < quota(r.kind) then
              Kept(all[..i + 1], quota) == kept + [r] && DroppedOf(all[..i + 1], quota) == dropped
            else
              Kept(all[..i + 1], quota) == kept
              && DroppedOf(all[..i + 1], quota) == dropped[r.kind := (if r.kind in dropped then dropped[r.kind] else 0) + 1]
  {
    assert all[..i + 1][..i] == all[..i];
  }

  lemma CountsAfter(kept: seq<Record>, r: Record)
    ensures forall k :: |OfKind(kept + [r], k)| == |OfKind(kept, k)| + if r.kind == k then 1 else 0
  {
    forall k ensures |OfKind(kept + [r], k)| == |OfKind(kept, k)| + if r.kind == k then 1 else 0 {
      assert (kept + [r])[..|kept|] == kept;
    }
  }

  lemma TailIsIdentified(records: seq<Record>)
    requires Identified(records) && records != []
    ensures Identified(records[1..]) && forall s | s in records[1..] :: s.id != records[0].id
  {
    var rest := records[1..];
    forall i, j | 0 <= i < j < |rest| ensures rest[i].id != rest[j].id {
      assert records[i + 1].id != records[j + 1].id;
    }
  }

  lemma PrependingIdentifies(r: Record, rest: seq<Record>)
    requires Identified(rest) && forall s | s in rest :: s.id != r.id
    ensures Identified([r] + rest)
  {
    var all := [r] + rest;
    forall i, j | 0 <= i < j < |all| ensures all[i].id != all[j].id {
      assert all[j] == rest[j - 1] && rest[j - 1] in rest;
      if i > 0 { assert rest[i - 1].id != rest[j - 1].id; }
    }
  }

  /** Storing adds the record, in place of the one with its id if there is one. */
  lemma {:induction false} StoringIdentifies(records: seq<Record>, r: Record)
    requires Identified(records)
    ensures Identified(Stored(records, r))
    ensures forall s :: s in Stored(records, r) <==> s == r || (s in records && s.id != r.id)
  {
    if records == [] {
    } else {
      TailIsIdentified(records);
      var first, rest := records[0], records[1..];
      assert records == [first] + rest;
      hide Identified;
      if first.id == r.id {
        PrependingIdentifies(r, rest);
      } else {
        StoringIdentifies(rest, r);
        PrependingIdentifies(first, Stored(rest, r));
      }
    }
  }

  // ---------------------------------------------------------------- what the model is shown

  predicate Subsequence(a: seq<Record>, b: seq<Record>) {
    if a == [] then true
    else if b == [] then false
    else if a[|a| - 1] == b[|b| - 1] then Subsequence(a[..|a| - 1], b[..|b| - 1])
    else Subsequence(a, b[..|b| - 1])
  }

  lemma {:induction false} SubsequenceOfLonger(a: seq<Record>, b: seq<Record>, last: Record)
    requires Subsequence(a, b)
    ensures Subsequence(a, b + [last])
  {
    assert (b + [last])[..|b|] == b;
    if a != [] && a[|a| - 1] == last {
      if b != [] {
        if a[|a| - 1] == b[|b| - 1] {
          SubsequenceOfLonger(a[..|a| - 1], b[..|b| - 1], b[|b| - 1]);
          assert b[..|b| - 1] + [b[|b| - 1]] == b;
        } else {
          DroppingLast(a, b[..|b| - 1]);
          SubsequenceOfLonger(a[..|a| - 1], b[..|b| - 1], b[|b| - 1]);
          assert b[..|b| - 1] + [b[|b| - 1]] == b;
        }
      }
    }
  }

  lemma {:induction false} DroppingLast(a: seq<Record>, b: seq<Record>)
    requires a != [] && Subsequence(a, b)
    ensures Subsequence(a[..|a| - 1], b)
  {
    assert b[..|b| - 1] + [b[|b| - 1]] == b;
    if a[|a| - 1] == b[|b| - 1] {
      SubsequenceOfLonger(a[..|a| - 1], b[..|b| - 1], b[|b| - 1]);
    } else {
      DroppingLast(a, b[..|b| - 1]);
      SubsequenceOfLonger(a[..|a| - 1], b[..|b| - 1], b[|b| - 1]);
    }
  }

  function Least(n: int, quota: int): nat {
    if quota <= 0 then 0 else if n < 0 then 0 else if n < quota then n else quota
  }

  lemma OfKindAppends(s: seq<Record>, r: Record, k: Kind)
    ensures OfKind(s + [r], k) == OfKind(s, k) + if r.kind == k then [r] else []
  {
    assert (s + [r])[..|s|] == s;
  }

  /** Of each kind exactly the first min(n, quota) records are shown, in order; the whole selection is
      a subsequence of the sorted evidence; and what is left out is what the marker counts. */
  lemma KeptIsTheFirstOfEachKind(s: seq<Record>, quota: Kind -> int, k: Kind)
    ensures var n := |OfKind(s, k)|;
            && OfKind(Kept(s, quota), k) == OfKind(s, k)[..Least(n, quota(k))]
            && (k in DroppedOf(s, quota) <==> n > Least(n, quota(k)))
            && (k in DroppedOf(s, quota) ==> Least(n, quota(k)) + DroppedOf(s, quota)[k] == n)
  {
    KeptAreTheFirst(s, quota, k);
  }

  lemma {:induction false} KeptAreTheFirst(s: seq<Record>, quota: Kind -> int, k: Kind)
    ensures FirstOfAll(OfKind(s, k), OfKind(Kept(s, quota), k), DroppedOf(s, quota), k, quota(k))
  {
    hide Kept, DroppedOf, OfKind, FirstOfAll;
    if s == [] {
      FirstOfNone(quota, k);
    } else {
      KeptAreTheFirst(s[..|s| - 1], quota, k);
      OneMoreIsKept(s[..|s| - 1], s[|s| - 1], quota, k);
      assert s == s[..|s| - 1] + [s[|s| - 1]];
    }
  }

  lemma FirstOfNone(quota: Kind -> int, k: Kind)
    ensures FirstOfAll(OfKind([], k), OfKind(Kept([], quota), k), DroppedOf([], quota), k, quota(k))
  {
  }

  lemma OneMoreIsKept(before: seq<Record>, last: Record, quota: Kind -> int, k: Kind)
    requires FirstOfAll(OfKind(before, k), OfKind(Kept(before, quota), k), DroppedOf(before, quota), k, quota(k))
    ensures FirstOfAll(OfKind(before + [last], k), OfKind(Kept(before + [last], quota), k), DroppedOf(before + [last], quota), k, quota(k))
  {
    hide Kept, DroppedOf, OfKind, FirstOfAll;
    var s := before + [last];
    assert s[..|s| - 1] == before;
    LastRecord(s, quota);
    OfKindAppends(before, last, k);
    OfKindAppends(Kept(before, quota), last, k);
    var all, kept := OfKind(before, k), OfKind(Kept(before, quota), k);
    assert all + [] == all && kept + [] == kept;
    if last.kind == k {
      NextOfItsKind(all, kept, DroppedOf(before, quota), last, quota(k));
    } else {
      NextOfAnother(all, kept, DroppedOf(before, quota), k, last, quota(k));
    }
  }

  lemma NextOfAnother(all: seq<Record>, kept: seq<Record>, dropped: map<Kind, nat>, k: Kind, last: Record, quota: int)
    requires FirstOfAll(all, kept, dropped, k, quota) && last.kind != k
    ensures FirstOfAll(all, kept, dropped[last.kind := (if last.kind in dropped then dropped[last.kind] else 0) + 1], k, quota)
  {
  }

  /** `kept` are the first of `all` records of a kind, and the marker counts the rest. */
  predicate FirstOfAll(all: seq<Record>, kept: seq<Record>, dropped: map<Kind, nat>, k: Kind, quota: int) {
    var n := Least(|all|, quota);
    && kept == all[..n]
    && (k in dropped <==> |all| > n)
    && (k in dropped ==> n + dropped[k] == |all|)
  }

  lemma NextOfItsKind(all: seq<Record>, kept: seq<Record>, dropped: map<Kind, nat>, last: Record, quota: int)
    requires FirstOfAll(all, kept, dropped, last.kind, quota)
    ensures if |kept| < quota then FirstOfAll(all + [last], kept + [last], dropped, last.kind, quota)
            else FirstOfAll(all + [last], kept, dropped[last.kind := (if last.kind in dropped then dropped[last.kind] else 0) + 1], last.kind, quota)
  {
    LongerPrefix(all, last, quota);
  }

  lemma LastRecord(s: seq<Record>, quota: Kind -> int)
    requires s != []
    ensures var before, r := s[..|s| - 1], s[|s| - 1];
            var kept, dropped := Kept(before, quota), DroppedOf(before, quota);
            if |OfKind(kept, r.kind)| < quota(r.kind) then Kept(s, quota) == kept + [r] && DroppedOf(s, quota) == dropped
            else
              Kept(s, quota) == kept
              && DroppedOf(s, quota) == dropped[r.kind := (if r.kind in dropped then dropped[r.kind] else 0) + 1]
  {
  }

  lemma LongerPrefix(s: seq<Record>, r: Record, quota: int)
    ensures (s + [r])[..Least(|s| + 1, quota)] ==
              if |s[..Least(|s|, quota)]| < quota then s[..Least(|s|, quota)] + [r] else s[..Least(|s|, quota)]
    ensures |s| < quota <==> |s[..Least(|s|, quota)]| < quota
  {
    if |s| < quota { assert s[..|s|] == s && (s + [r])[..|s| + 1] == s + [r]; }
  }

  /** The selection keeps the sorted order. */
  lemma {:induction false} KeptIsASubsequence(s: seq<Record>, quota: Kind -> int)
    ensures Subsequence(Kept(s, quota), s)
  {
    if s != [] {
      var before, last := s[..|s| - 1], s[|s| - 1];
      assert s == before + [last];
      var kept := Kept(before, quota);
      KeptIsASubsequence(before, quota);
      SubsequenceOfLonger(kept, before, last);
      assert (kept + [last])[..|kept|] == kept;
    }
  }

  function Total(dropped: map<Kind, nat>, kinds: seq<Kind>): nat {
    if kinds == [] then 0 else (if kinds[0] in dropped then dropped[kinds[0]] else 0) + Total(dropped, kinds[1..])
  }

  lemma {:induction false} DroppingOneMore(dropped: map<Kind, nat>, k: Kind, kinds: seq<Kind>)
    requires forall i, j | 0 <= i < j < |kinds| :: kinds[i] != kinds[j]
    ensures Total(dropped[k := (if k in dropped then dropped[k] else 0) + 1], kinds) == Total(dropped, kinds) + if k in kinds then 1 else 0
  {
    if kinds != [] {
      DroppingOneMore(dropped, k, kinds[1..]);
      assert k in kinds <==> k == kinds[0] || k in kinds[1..];
    }
  }

  /** Shown and omitted records together are all of them. */
  lemma {:induction false} NothingIsLost(s: seq<Record>, quota: Kind -> int)
    ensures |Kept(s, quota)| + Total(DroppedOf(s, quota), KINDS) == |s|
  {
    if s == [] {
      NothingDropped(KINDS);
    } else {
      NothingIsLost(s[..|s| - 1], quota);
      OneMoreIsCounted(s, quota);
    }
  }

  lemma OneMoreIsCounted(s: seq<Record>, quota: Kind -> int)
    requires s != []
    ensures |Kept(s, quota)| + Total(DroppedOf(s, quota), KINDS) ==
            |Kept(s[..|s| - 1], quota)| + Total(DroppedOf(s[..|s| - 1], quota), KINDS) + 1
  {
    hide *;
    LastRecord(s, quota);
    EveryKindIsListed(s[|s| - 1].kind);
    KindsAreDistinct();
    DroppingOneMore(DroppedOf(s[..|s| - 1], quota), s[|s| - 1].kind, KINDS);
  }

  lemma KindsAreDistinct()
    ensures forall i, j | 0 <= i < j < |KINDS| :: KINDS[i] != KINDS[j]
  {
  }

  lemma EveryKindIsListed(k: Kind)
    ensures k in KINDS
  {
    assert KINDS[Rank(k)] == k;
  }

  lemma {:induction false} NothingDropped(kinds: seq<Kind>)
    ensures Total(map[], kinds) == 0
  {
    if kinds != [] { NothingDropped(kinds[1..]); }
  }

  /** The same records, in whatever order they arrived, show the model the same evidence and the same
      markers. */
  lemma ArrivalOrderDoesNotMatter(a: seq<Record>, b: seq<Record>, quota: Kind -> int)
    requires Identified(a) && Identified(b) && multiset(a) == multiset(b)
    ensures Ordered(a) == Ordered(b)
    ensures Kept(Ordered(a), quota) == Kept(Ordered(b), quota)
    ensures DroppedOf(Ordered(a), quota) == DroppedOf(Ordered(b), quota)
  {
    OrderedSorts(a);
    OrderedSorts(b);
    SortingIsUnique(Ordered(a), Ordered(b));
  }

  /** Evidence with a new id is kept last; evidence with a known one replaces what was there, in its place. */
  lemma {:induction false} StoringKeepsPlaces(records: seq<Record>, r: Record, i: nat)
    requires Identified(records) && i <= |records|
    ensures i < |records| && records[i].id == r.id ==> Stored(records, r) == records[i := r]
    ensures i == |records| && (forall s | s in records :: s.id != r.id) ==> Stored(records, r) == records + [r]
  {
    if records != [] {
      TailIsIdentified(records);
      if i > 0 {
        StoringKeepsPlaces(records[1..], r, i - 1);
        assert i < |records| ==> records[i := r] == [records[0]] + records[1..][i - 1 := r];
        assert records + [r] == [records[0]] + (records[1..] + [r]);
        assert i < |records| ==> records[i] in records[1..];
      }
    }
  }

  // ---------------------------------------------------------------- the order and the markers, read off

  /** A text comes before another if it is a proper prefix of it, or smaller at the first difference. */
  lemma {:induction false} TextOrderIsLexical(a: string, b: string)
    ensures TextBefore(a, b) <==>
              a < b || exists i :: 0 <= i < |a| && i < |b| && a[..i] == b[..i] && a[i] < b[i]
  {
    if b == "" {
    } else if a == "" {
      assert a < b;
    } else if a[0] != b[0] {
      if a[0] < b[0] { assert a[..0] == b[..0]; }
      if i :| 0 <= i < |a| && i < |b| && a[..i] == b[..i] && a[i] < b[i] {
        AlikeUpTo(a, b, i);
      }
    } else {
      TextOrderIsLexical(a[1..], b[1..]);
      assert a == [a[0]] + a[1..] && b == [b[0]] + b[1..];
      assert a < b <==> a[1..] < b[1..];
      LaterDifference(a, b);
    }
  }

  lemma AlikeUpTo(a: string, b: string, i: nat)
    requires i < |a| && i < |b| && a[..i] == b[..i]
    ensures i > 0 ==> a[0] == b[0]
  {
    if i > 0 { assert a[..i][0] == b[..i][0]; }
  }

  lemma LaterDifference(a: string, b: string)
    requires a != "" && b != "" && a[0] == b[0]
    ensures (exists i :: 0 <= i < |a| && i < |b| && a[..i] == b[..i] && a[i] < b[i])
       <==> exists i :: 0 <= i < |a[1..]| && i < |b[1..]| && a[1..][..i] == b[1..][..i] && a[1..][i] < b[1..][i]
  {
    if i :| 0 <= i < |a| && i < |b| && a[..i] == b[..i] && a[i] < b[i] {
      assert i > 0;
      assert a[1..][..i - 1] == a[..i][1..] == b[..i][1..] == b[1..][..i - 1];
      assert a[1..][i - 1] < b[1..][i - 1];
    }
    if i :| 0 <= i < |a[1..]| && i < |b[1..]| && a[1..][..i] == b[1..][..i] && a[1..][i] < b[1..][i] {
      assert a[..i + 1] == [a[0]] + a[1..][..i] == [b[0]] + b[1..][..i] == b[..i + 1];
      assert a[i + 1] < b[i + 1];
    }
  }

  /** The model reads evidence in the order it was observed; what was observed at once by kind, in the
      alphabetical order of the kinds; and what is of one kind by id. */
  lemma EvidenceIsChronological(records: seq<Record>, i: nat, j: nat)
    requires Identified(records) && i < j < |Ordered(records)|
    ensures var a, b := Ordered(records)[i], Ordered(records)[j];
            && a.observedAt <= b.observedAt
            && (a.observedAt == b.observedAt ==> Rank(a.kind) <= Rank(b.kind))
            && (a.observedAt == b.observedAt && a.kind == b.kind ==>
                  a.id < b.id || exists k :: 0 <= k < |a.id| && k < |b.id| && a.id[..k] == b.id[..k] && a.id[k] < b.id[k])
    ensures forall k: Kind :: KINDS[Rank(k)] == k
  {
    OrderedSorts(records);
    assert Before(Ordered(records)[i], Ordered(records)[j]);
    TextOrderIsLexical(Ordered(records)[i].id, Ordered(records)[j].id);
  }

  lemma {:induction false} MarkersCarryTheCount(dropped: map<Kind, nat>, kinds: seq<Kind>, m: (Kind, nat))
    ensures m in Markers(dropped, kinds) <==> m.0 in kinds && m.0 in dropped && m.1 == dropped[m.0]
  {
    if kinds != [] {
      MarkersCarryTheCount(dropped, kinds[1..], m);
      assert m.0 in kinds <==> m.0 == kinds[0] || m.0 in kinds[1..];
    }
  }

  predicate Alphabetical(ms: seq<(Kind, nat)>) {
    forall i, j | 0 <= i < j < |ms| :: Rank(ms[i].0) < Rank(ms[j].0)
  }

  lemma OneMoreInFront(m: (Kind, nat), ms: seq<(Kind, nat)>)
    requires Alphabetical(ms) && forall i | 0 <= i < |ms| :: Rank(m.0) < Rank(ms[i].0)
    ensures Alphabetical([m] + ms)
  {
  }

  lemma {:induction false} MarkersAreAlphabetical(dropped: map<Kind, nat>, kinds: seq<Kind>)
    requires forall i, j | 0 <= i < j < |kinds| :: Rank(kinds[i]) < Rank(kinds[j])
    ensures Alphabetical(Markers(dropped, kinds))
  {
    if kinds != [] {
      var rest := kinds[1..];
      assert forall i | 0 <= i < |rest| :: rest[i] == kinds[i + 1];
      MarkersAreAlphabetical(dropped, rest);
      var ms := Markers(dropped, rest);
      hide Alphabetical;
      forall i | 0 <= i < |ms| ensures Rank(kinds[0]) < Rank(ms[i].0) {
        MarkersCarryTheCount(dropped, rest, ms[i]);
        var n :| 0 <= n < |rest| && rest[n] == ms[i].0;
        assert rest[n] == kinds[n + 1];
      }
      if kinds[0] in dropped { OneMoreInFront((kinds[0], dropped[kinds[0]]), ms); } else { assert [] + ms == ms; }
    }
  }

  /** One marker for each kind that lost records, in alphabetical order, with the number lost: all of the
      kind less the first `quota` that are shown. */
  lemma MarkersSayWhatIsMissing(records: seq<Record>, quota: Kind -> int, k: Kind)
    ensures var all, ms := Ordered(records), Markers(DroppedOf(Ordered(records), quota), KINDS);
            var n, shown := |OfKind(all, k)|, Least(|OfKind(all, k)|, quota(k));
            && (forall m | m in ms && m.0 == k :: n > shown && m.1 == n - shown)
            && (n > shown ==> (k, (n - shown) as nat) in ms)
            && (forall i, j | 0 <= i < j < |ms| :: Rank(ms[i].0) < Rank(ms[j].0))
  {
    var all := Ordered(records);
    KeptIsTheFirstOfEachKind(all, quota, k);
    EveryKindIsListed(k);
    hide Ordered, DroppedOf, OfKind, Kept, Least, Markers;
    forall m ensures m in Markers(DroppedOf(all, quota), KINDS) <==> m.0 in KINDS && m.0 in DroppedOf(all, quota) && m.1 == DroppedOf(all, quota)[m.0] {
      MarkersCarryTheCount(DroppedOf(all, quota), KINDS, m);
    }
    MarkersAreAlphabetical(DroppedOf(all, quota), KINDS);
  }

  // ---------------------------------------------------------------- how much is shown

  lemma {:induction false} EveryRecordIsOfAKind(s: seq<Record>)
    ensures |s| == |OfKind(s, Change)| + |OfKind(s, Log)| + |OfKind(s, Metric)| + |OfKind(s, Symptom)| + |OfKind(s, Topology)|
  {
    if s != [] { EveryRecordIsOfAKind(s[..|s| - 1]); }
  }

  function Smaller(n: nat, m: nat): nat {
    if n < m then n else m
  }

  lemma AsManyAsTheQuota(s: seq<Record>, quota: Kind -> int, k: Kind)
    requires quota(k) >= 0
    ensures |OfKind(Kept(s, quota), k)| == Smaller(|OfKind(s, k)|, quota(k))
  {
    KeptIsTheFirstOfEachKind(s, quota, k);
    hide Kept, OfKind, DroppedOf;
  }

  /** However much is retrieved, the model is shown two records each of symptoms and topology and, of every
      other kind, one more than the checks a run can execute; or all there are. */
  lemma ContextIsBounded(records: seq<Record>, executedTools: nat)
    ensures var all := Ordered(records);
            var shown := Kept(all, QuotaFor(executedTools));
            && |shown| <= 3 * (executedTools + 1) + 4
            && (forall k | k == Symptom || k == Topology :: |OfKind(shown, k)| == Smaller(|OfKind(all, k)|, 2))
            && (forall k | k != Symptom && k != Topology :: |OfKind(shown, k)| == Smaller(|OfKind(all, k)|, executedTools + 1))
  {
    var all, quota := Ordered(records), QuotaFor(executedTools);
    forall k ensures |OfKind(Kept(all, quota), k)| == Smaller(|OfKind(all, k)|, quota(k)) { AsManyAsTheQuota(all, quota, k); }
    EveryRecordIsOfAKind(Kept(all, quota));
    hide Ordered, Kept, OfKind;
  }
}

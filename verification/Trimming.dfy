/** Bounding a tool result (`evidence.py`, `trim_to_bytes`): rows go first, oldest first, then text. */
module Trimming {
  import opened Wrappers

  datatype Json =
    | Null
    | Bool(flag: bool)
    | Number(number: int)
    | Str(text: string)
    | List(items: seq<Json>)
    | Object(fields: seq<Field>)

  datatype Field = Field(key: string, value: Json)

  const TRUNCATED := "truncated"

  /** `payload[key] = value` on an insertion-ordered dictionary. */
  function Put(fields: seq<Field>, key: string, value: Json): seq<Field> {
    if fields == [] then [Field(key, value)]
    else if fields[0].key == key then [Field(key, value)] + fields[1..]
    else [fields[0]] + Put(fields[1..], key, value)
  }

  function Get(fields: seq<Field>, key: string): Option<Json> {
    if fields == [] then None
    else if fields[0].key == key then Some(fields[0].value)
    else Get(fields[1..], key)
  }

  lemma {:induction false} GetPut(fields: seq<Field>, key: string, value: Json, other: string)
    ensures Get(Put(fields, key, value), other) == if other == key then Some(value) else Get(fields, other)
  {
    if fields != [] && fields[0].key != key {
      GetPut(fields[1..], key, value, other);
    }
  }

  // ---------------------------------------------------------------- dropping rows

  function Base(fields: seq<Field>, rowsKey: string, rows: seq<Json>, countKey: string): seq<Field> {
    Put(Put(fields, rowsKey, List(rows)), countKey, Number(|rows|))
  }

  /** After `k` rows were popped from the front. */
  function Popped(fields: seq<Field>, rowsKey: string, rows: seq<Json>, countKey: string, k: nat): seq<Field>
    requires k <= |rows|
  {
    if k == 0 then Base(fields, rowsKey, rows, countKey)
    else Put(Base(Popped(fields, rowsKey, rows, countKey, k - 1), rowsKey, rows[k..], countKey), TRUNCATED, Bool(true))
  }

  /** The fewest pops after which the payload fits, or all of them. */
  function Pops(fits: seq<Field> -> bool, fields: seq<Field>, rowsKey: string, rows: seq<Json>, countKey: string, k: nat): (n: nat)
    requires k <= |rows|
    ensures k <= n <= |rows|
    ensures n < |rows| ==> fits(Popped(fields, rowsKey, rows, countKey, n))
    ensures forall j | k <= j < n :: !fits(Popped(fields, rowsKey, rows, countKey, j))
    decreases |rows| - k
  {
    if k == |rows| || fits(Popped(fields, rowsKey, rows, countKey, k)) then k
    else Pops(fits, fields, rowsKey, rows, countKey, k + 1)
  }

  // ---------------------------------------------------------------- shrinking text

  function TextIn(v: Json): nat {
    if v.Str? then |v.text| else 0
  }

  function TotalText(fields: seq<Field>): nat {
    if fields == [] then 0 else TextIn(fields[0].value) + TotalText(fields[1..])
  }

  /** `max(..., default=None)`: the first of the longest non-empty strings. */
  function Widest(fields: seq<Field>): (w: Option<Field>)
    ensures w.Some? ==> w.value in fields && w.value.value.Str? && w.value.value.text != ""
    ensures forall f | f in fields && f.value.Str? && f.value.text != "" :: w.Some? && |f.value.text| <= |w.value.value.text|
  {
    if fields == [] then None
    else
      var rest := Widest(fields[1..]);
      if TextIn(fields[0].value) > 0 && (rest.None? || TextIn(fields[0].value) >= TextIn(rest.value.value)) then Some(fields[0])
      else rest
  }

  function Halved(f: Field): Json
    requires f.value.Str?
  {
    Str(f.value.text[..|f.value.text| / 2])
  }

  function ShrinkOnce(fields: seq<Field>): seq<Field>
    requires Widest(fields).Some?
  {
    var w := Widest(fields).value;
    Put(Put(fields, w.key, Halved(w)), TRUNCATED, Bool(true))
  }

  /** No key twice: what a dictionary is. */
  ghost predicate Dictionary(fields: seq<Field>) {
    forall i, j | 0 <= i < j < |fields| :: fields[i].key != fields[j].key
  }

  lemma {:induction false} PutAdds(fields: seq<Field>, key: string, value: Json)
    ensures forall f | f in Put(fields, key, value) :: f == Field(key, value) || f in fields
    ensures TotalText(Put(fields, key, value)) <= TotalText(fields) + TextIn(value)
    ensures Dictionary(fields) ==> Dictionary(Put(fields, key, value))
  {
    if fields != [] && fields[0].key != key {
      PutAdds(fields[1..], key, value);
      var rest := Put(fields[1..], key, value);
      assert Put(fields, key, value) == [fields[0]] + rest;
      assert Put(fields, key, value)[1..] == rest;
      if Dictionary(fields) {
        forall f | f in rest ensures f.key != fields[0].key {
          if f in fields[1..] { var i :| 0 <= i < |fields[1..]| && fields[1..][i] == f; assert fields[i + 1] == f; }
        }
        forall i, j | 0 <= i < j < |fields[1..]| ensures fields[1..][i].key != fields[1..][j].key {
          assert fields[i + 1].key != fields[j + 1].key;
        }
        assert Dictionary(rest);
        forall i, j | 0 <= i < j < |[fields[0]] + rest| ensures ([fields[0]] + rest)[i].key != ([fields[0]] + rest)[j].key {
          if i == 0 { assert rest[j - 1] in rest; } else { assert rest[i - 1].key != rest[j - 1].key; }
        }
      }
    } else if fields != [] {
      assert Put(fields, key, value)[1..] == fields[1..];
    }
  }

  lemma {:induction false} PutReplaces(fields: seq<Field>, f: Field, value: Json)
    requires Dictionary(fields) && f in fields
    ensures TotalText(Put(fields, f.key, value)) == TotalText(fields) - TextIn(f.value) + TextIn(value)
    ensures TextIn(f.value) <= TotalText(fields)
  {
    if fields[0].key == f.key {
      var i :| 0 <= i < |fields| && fields[i] == f;
      assert i == 0;
      assert Put(fields, f.key, value)[1..] == fields[1..];
    } else {
      assert f in fields[1..];
      forall i, j | 0 <= i < j < |fields[1..]| ensures fields[1..][i].key != fields[1..][j].key {
        assert fields[i + 1].key != fields[j + 1].key;
      }
      PutReplaces(fields[1..], f, value);
      assert Put(fields, f.key, value)[1..] == Put(fields[1..], f.key, value);
    }
  }

  lemma ShrinkingShrinks(fields: seq<Field>)
    requires Dictionary(fields) && Widest(fields).Some?
    ensures Dictionary(ShrinkOnce(fields)) && TotalText(ShrinkOnce(fields)) < TotalText(fields)
  {
    var w := Widest(fields).value;
    PutReplaces(fields, w, Halved(w));
    PutAdds(fields, w.key, Halved(w));
    PutAdds(Put(fields, w.key, Halved(w)), TRUNCATED, Bool(true));
  }

  /** Halve the widest text until the payload fits or no text is left. */
  ghost function Shrunk(fits: seq<Field> -> bool, fields: seq<Field>): (r: seq<Field>)
    requires Dictionary(fields)
    ensures Dictionary(r)
    ensures fits(r) || Widest(r).None?
    decreases TotalText(fields)
  {
    if fits(fields) || Widest(fields).None? then fields
    else
      ShrinkingShrinks(fields);
      Shrunk(fits, ShrinkOnce(fields))
  }

  // ---------------------------------------------------------------- the whole function

  lemma {:induction false} PoppedIsADictionary(fields: seq<Field>, rowsKey: string, rows: seq<Json>, countKey: string, k: nat)
    requires Dictionary(fields) && k <= |rows|
    ensures Dictionary(Popped(fields, rowsKey, rows, countKey, k))
  {
    hide Dictionary, Put;
    if k == 0 {
      BaseIsADictionary(fields, rowsKey, rows, countKey);
    } else {
      PoppedIsADictionary(fields, rowsKey, rows, countKey, k - 1);
      var before := Popped(fields, rowsKey, rows, countKey, k - 1);
      BaseIsADictionary(before, rowsKey, rows[k..], countKey);
      PutAdds(Base(before, rowsKey, rows[k..], countKey), TRUNCATED, Bool(true));
    }
  }

  lemma BaseIsADictionary(fields: seq<Field>, rowsKey: string, rows: seq<Json>, countKey: string)
    requires Dictionary(fields)
    ensures Dictionary(Base(fields, rowsKey, rows, countKey))
  {
    hide Dictionary, Put;
    PutAdds(fields, rowsKey, List(rows));
    PutAdds(Put(fields, rowsKey, List(rows)), countKey, Number(|rows|));
  }

  /** What `trim_to_bytes` returns. */
  ghost function Trim(fits: seq<Field> -> bool, fields: seq<Field>, rowsKey: string, rows: seq<Json>, countKey: string): seq<Field>
    requires Dictionary(fields)
  {
    var n := Pops(fits, fields, rowsKey, rows, countKey, 0);
    PoppedIsADictionary(fields, rowsKey, rows, countKey, n);
    Shrunk(fits, Popped(fields, rowsKey, rows, countKey, n))
  }

  class Payload {
    var fields: seq<Field>

    constructor (fields: seq<Field>)
      ensures this.fields == fields
    {
      this.fields := fields;
    }

    method Set(key: string, value: Json)
      modifies this
      ensures fields == Put(old(fields), key, value)
    {
      fields := Put(fields, key, value);
    }
  }

  /** `fits` is whether the JSON text is within the byte bound; nothing here depends on how it is
      measured. */
  method TrimToBytes(payload: Payload, rowsKey: string, rows: seq<Json>, countKey: string, fits: seq<Field> -> bool)
    requires Dictionary(payload.fields)
    modifies payload
    ensures payload.fields == Trim(fits, old(payload.fields), rowsKey, rows, countKey)
  {
    ghost var before := payload.fields;
    var kept := rows;
    payload.Set(rowsKey, List(kept));
    payload.Set(countKey, Number(|kept|));
    ghost var k: nat := 0;
    while kept != [] && !fits(payload.fields)
      invariant k <= |rows| && kept == rows[k..]
      invariant payload.fields == Popped(before, rowsKey, rows, countKey, k)
      invariant Pops(fits, before, rowsKey, rows, countKey, 0) == Pops(fits, before, rowsKey, rows, countKey, k)
      decreases |kept|
    {
      kept := kept[1..];
      payload.Set(rowsKey, List(kept));
      payload.Set(countKey, Number(|kept|));
      payload.Set(TRUNCATED, Bool(true));
      k := k + 1;
    }
    PoppedIsADictionary(before, rowsKey, rows, countKey, k);
    ghost var popped := payload.fields;
    while !fits(payload.fields)
      invariant Dictionary(payload.fields)
      invariant Shrunk(fits, payload.fields) == Shrunk(fits, popped)
      decreases TotalText(payload.fields)
    {
      var widest := Widest(payload.fields);
      if widest.None? {
        break;
      }
      ShrinkingShrinks(payload.fields);
      payload.Set(widest.value.key, Halved(widest.value));
      payload.Set(TRUNCATED, Bool(true));
    }
  }

  // ---------------------------------------------------------------- what it promises

  lemma {:induction false} PoppedRows(fields: seq<Field>, rowsKey: string, rows: seq<Json>, countKey: string, k: nat, other: string)
    requires rowsKey != countKey && TRUNCATED != rowsKey && TRUNCATED != countKey && k <= |rows|
    ensures var popped := Popped(fields, rowsKey, rows, countKey, k);
            && Get(popped, rowsKey) == Some(List(rows[k..]))
            && Get(popped, countKey) == Some(Number(|rows| - k))
            && Get(popped, TRUNCATED) == (if k > 0 then Some(Bool(true)) else Get(fields, TRUNCATED))
            && (other != rowsKey && other != countKey && other != TRUNCATED ==> Get(popped, other) == Get(fields, other))
  {
    var before := if k == 0 then fields else Popped(fields, rowsKey, rows, countKey, k - 1);
    if k > 0 { PoppedRows(fields, rowsKey, rows, countKey, k - 1, other); }
    assert rows[0..] == rows;
    var one := Put(before, rowsKey, List(rows[k..]));
    var two := Put(one, countKey, Number(|rows| - k));
    forall key | key in {rowsKey, countKey, TRUNCATED, other}
      ensures Get(Put(two, TRUNCATED, Bool(true)), key) ==
              if key == TRUNCATED then Some(Bool(true)) else if key == countKey then Some(Number(|rows| - k))
              else if key == rowsKey then Some(List(rows[k..])) else Get(before, key)
      ensures Get(two, key) ==
              if key == countKey then Some(Number(|rows| - k)) else if key == rowsKey then Some(List(rows[k..])) else Get(before, key)
    {
      GetPut(before, rowsKey, List(rows[k..]), key);
      GetPut(one, countKey, Number(|rows| - k), key);
      GetPut(two, TRUNCATED, Bool(true), key);
    }
  }

  predicate IsPrefixText(after: Option<Json>, before: Option<Json>) {
    after == before || (after.Some? && before.Some? && after.value.Str? && before.value.Str? && after.value.text <= before.value.text)
  }

  lemma {:induction false} FieldIsGot(fields: seq<Field>, f: Field)
    requires Dictionary(fields) && f in fields
    ensures Get(fields, f.key) == Some(f.value)
  {
    if fields[0].key == f.key {
      var i :| 0 <= i < |fields| && fields[i] == f;
      assert i == 0;
    } else {
      assert f in fields[1..];
      forall i, j | 0 <= i < j < |fields[1..]| ensures fields[1..][i].key != fields[1..][j].key {
        assert fields[i + 1].key != fields[j + 1].key;
      }
      FieldIsGot(fields[1..], f);
    }
  }

  /** Shrinking only shortens texts, and says so. */
  lemma {:induction false} ShrunkOnlyShortens(fits: seq<Field> -> bool, fields: seq<Field>, key: string)
    requires Dictionary(fields)
    ensures var r := Shrunk(fits, fields);
            && (key != TRUNCATED ==> IsPrefixText(Get(r, key), Get(fields, key)))
            && (r != fields ==> Get(r, TRUNCATED) == Some(Bool(true)))
            && (r == fields ==> Get(r, TRUNCATED) == Get(fields, TRUNCATED))
    decreases TotalText(fields)
  {
    if !fits(fields) && Widest(fields).Some? {
      var w := Widest(fields).value;
      var next := ShrinkOnce(fields);
      ShrinkingShrinks(fields);
      FieldIsGot(fields, w);
      forall k | k in {key, TRUNCATED}
        ensures Get(next, k) == if k == TRUNCATED then Some(Bool(true)) else if k == w.key then Some(Halved(w)) else Get(fields, k)
      {
        GetPut(fields, w.key, Halved(w), k);
        GetPut(Put(fields, w.key, Halved(w)), TRUNCATED, Bool(true), k);
      }
      ShrunkOnlyShortens(fits, next, key);
    }
  }

  /** The result fits, or it has no rows and no text left to drop. The rows kept are the longest
      suffix at which popping could stop, their count is right, every other field is untouched or a
      shortened text, and anything dropped is flagged. */
  lemma TrimKeepsItsPromise(fits: seq<Field> -> bool, fields: seq<Field>, rowsKey: string, rows: seq<Json>, countKey: string, other: string)
    requires Dictionary(fields) && rowsKey != countKey && TRUNCATED != rowsKey && TRUNCATED != countKey
    ensures var r, n := Trim(fits, fields, rowsKey, rows, countKey), Pops(fits, fields, rowsKey, rows, countKey, 0);
            && Get(r, rowsKey) == Some(List(rows[n..]))
            && Get(r, countKey) == Some(Number(|rows| - n))
            && (fits(r) || (rows[n..] == [] && forall f | f in r && f.value.Str? :: f.value.text == ""))
            && (forall j | 0 <= j < n :: !fits(Popped(fields, rowsKey, rows, countKey, j)))
            && (n < |rows| ==> r == Popped(fields, rowsKey, rows, countKey, n))
            && (other != rowsKey && other != countKey && other != TRUNCATED ==> IsPrefixText(Get(r, other), Get(fields, other)))
            && (n > 0 || Get(r, other) != Get(Base(fields, rowsKey, rows, countKey), other) ==> Get(r, TRUNCATED) == Some(Bool(true)))
  {
    var n := Pops(fits, fields, rowsKey, rows, countKey, 0);
    var popped := Popped(fields, rowsKey, rows, countKey, n);
    PoppedIsADictionary(fields, rowsKey, rows, countKey, n);
    PoppedRows(fields, rowsKey, rows, countKey, n, other);
    ShrunkOnlyShortens(fits, popped, rowsKey);
    ShrunkOnlyShortens(fits, popped, countKey);
    ShrunkOnlyShortens(fits, popped, other);
  }

  // ---------------------------------------------------------------- how text is shortened

  /** Every text is at most `n` long. */
  predicate NoLonger(fields: seq<Field>, n: int) {
    forall f | f in fields && f.value.Str? :: |f.value.text| <= n
  }

  /** `w` is the first of the longest texts, and not empty. */
  predicate WidestAt(fields: seq<Field>, w: Field, i: nat) {
    && i < |fields| && fields[i] == w && w.value.Str? && w.value.text != ""
    && NoLonger(fields[..i], |w.value.text| - 1) && NoLonger(fields[i..], |w.value.text|)
  }

  lemma OneMoreBefore(f: Field, fields: seq<Field>, w: Field, i: nat)
    requires WidestAt(fields, w, i) && TextIn(f.value) < TextIn(w.value)
    ensures WidestAt([f] + fields, w, i + 1)
  {
    assert ([f] + fields)[..i + 1] == [f] + fields[..i] && ([f] + fields)[i + 1..] == fields[i..];
  }

  lemma {:induction false} WidestIsTheFirst(fields: seq<Field>) returns (i: nat)
    requires Widest(fields).Some?
    ensures WidestAt(fields, Widest(fields).value, i)
  {
    var w, rest := Widest(fields).value, fields[1..];
    if TextIn(fields[0].value) > 0 && (Widest(rest).None? || TextIn(fields[0].value) >= TextIn(Widest(rest).value.value)) {
      i := 0;
    } else {
      var k := WidestIsTheFirst(rest);
      i := k + 1;
      OneMoreBefore(fields[0], rest, w, k);
      assert fields == [fields[0]] + rest;
    }
  }

  /** From `before` to `after` the widest text lost its second half, and nothing else changed but the
      flag. */
  ghost predicate LosesHalf(before: seq<Field>, after: seq<Field>, widest: Field) {
    && (exists i :: WidestAt(before, widest, i))
    && (widest.key != TRUNCATED ==> Get(after, widest.key) == Some(Str(widest.value.text[..|widest.value.text| / 2])))
    && Get(after, TRUNCATED) == Some(Bool(true))
    && forall key | key != widest.key && key != TRUNCATED :: Get(after, key) == Get(before, key)
  }

  ghost predicate ShortenedAt(fits: seq<Field> -> bool, steps: seq<seq<Field>>, i: nat)
    requires i + 1 < |steps|
  {
    !fits(steps[i]) && exists widest | widest in steps[i] :: LosesHalf(steps[i], steps[i + 1], widest)
  }

  ghost predicate IsShortening(fits: seq<Field> -> bool, steps: seq<seq<Field>>) {
    forall i | 0 <= i < |steps| - 1 :: ShortenedAt(fits, steps, i)
  }

  lemma ShrinkingLosesHalf(fields: seq<Field>)
    requires Dictionary(fields) && Widest(fields).Some?
    ensures LosesHalf(fields, ShrinkOnce(fields), Widest(fields).value)
  {
    var w := Widest(fields).value;
    var i := WidestIsTheFirst(fields);
    hide WidestAt, Widest;
    forall key
      ensures Get(ShrinkOnce(fields), key) ==
              if key == TRUNCATED then Some(Bool(true)) else if key == w.key then Some(Halved(w)) else Get(fields, key)
    {
      GetPut(fields, w.key, Halved(w), key);
      GetPut(Put(fields, w.key, Halved(w)), TRUNCATED, Bool(true), key);
    }
  }

  /** Text is shortened one halving of the longest at a time, no sooner and no further than it takes to
      fit, or to leave no text at all. */
  lemma {:induction false} TextIsHalvedUntilItFits(fits: seq<Field> -> bool, fields: seq<Field>) returns (steps: seq<seq<Field>>)
    requires Dictionary(fields)
    ensures steps != [] && steps[0] == fields && steps[|steps| - 1] == Shrunk(fits, fields)
    ensures IsShortening(fits, steps)
    ensures var last := steps[|steps| - 1]; fits(last) || forall f | f in last && f.value.Str? :: f.value.text == ""
    decreases TotalText(fields)
  {
    if fits(fields) || Widest(fields).None? {
      steps := [fields];
    } else {
      ShrinkingShrinks(fields);
      ShrinkingLosesHalf(fields);
      var rest := TextIsHalvedUntilItFits(fits, ShrinkOnce(fields));
      steps := [fields] + rest;
      hide Shrunk, LosesHalf, ShrinkOnce, Widest;
      forall i | 0 <= i < |steps| - 1 ensures ShortenedAt(fits, steps, i) {
        if i > 0 {
          assert ShortenedAt(fits, rest, i - 1);
          assert steps[i] == rest[i - 1] && steps[i + 1] == rest[i];
        }
      }
    }
  }
}

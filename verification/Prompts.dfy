/** The text the model sees (`prompts.py`): untrusted evidence sits on lines of its own between one
    pair of fence markers that nothing inside it can close. */
module Prompts {
  import opened Wrappers
  import opened Text

  const OPEN := "<untrusted-telemetry>"
  const CLOSE := "</untrusted-telemetry>"
  const REMOVED := "[removed]"

  // ---------------------------------------------------------------- substrings

  predicate StartsWith(s: string, q: string) {
    |q| <= |s| && s[..|q|] == q
  }

  /** `s.count(q)`, for a marker, whose occurrences never overlap. */
  function Count(s: string, q: string): nat {
    if s == "" then 0 else (if StartsWith(s, q) then 1 else 0) + Count(s[1..], q)
  }

  predicate Free(s: string, q: string) {
    Count(s, q) == 0
  }

  /** A character a marker does not contain separates what is left of it from what is right of it. */
  lemma {:induction false} CountAcross(a: string, c: char, b: string, q: string)
    requires q != "" && c !in q
    ensures Count(a + [c] + b, q) == Count(a, q) + Count(b, q)
  {
    var s := a + [c] + b;
    if a == "" {
      assert s == [c] + b && s[1..] == b;
      assert q[0] in q;
      StartMatches(s, q, 0);
    } else {
      assert s[0] == a[0] && s[1..] == a[1..] + [c] + b;
      CountAcross(a[1..], c, b, q);
      StartsAcross(a, c, b, q);
    }
  }

  lemma StartsAcross(a: string, c: char, b: string, q: string)
    requires q != "" && c !in q
    ensures StartsWith(a + [c] + b, q) <==> StartsWith(a, q)
  {
    var s := a + [c] + b;
    if |q| <= |a| {
      assert s[..|q|] == a[..|q|];
    } else {
      StartMatches(s, q, |a|);
      assert s[|a|] == c && q[|a|] in q;
    }
  }

  lemma StartMatches(s: string, q: string, i: nat)
    requires i < |q|
    ensures StartsWith(s, q) ==> i < |s| && s[i] == q[i]
  {
    if StartsWith(s, q) { assert s[..|q|][i] == q[i]; }
  }

  lemma {:induction false} TooShortToCount(s: string, q: string)
    requires |s| < |q|
    ensures Count(s, q) == 0
  {
    if s != "" { TooShortToCount(s[1..], q); }
  }

  lemma CountsItselfOnce(q: string)
    requires q != ""
    ensures Count(q, q) == 1
  {
    assert q[..|q|] == q;
    TooShortToCount(q[1..], q);
  }

  // ---------------------------------------------------------------- making text safe

  /** `" ".join(text.split())` */
  function Flatten(text: string): string {
    Spaced(text, false)
  }

  /** `pending`: a word was written and white space has followed it. */
  function Spaced(text: string, pending: bool): string {
    if text == "" then ""
    else if IsSpace(text[0]) then Spaced(text[1..], pending)
    else (if pending then " " else "") + Word(text)
  }

  function Word(text: string): string
    decreases |text|, 0
  {
    if text == "" then ""
    else if IsSpace(text[0]) then Trailing(text[1..])
    else [text[0]] + Word(text[1..])
  }

  function Trailing(text: string): string
    decreases |text|, 1
  {
    if text == "" then ""
    else if IsSpace(text[0]) then Trailing(text[1..])
    else " " + Word(text)
  }

  /** `s.replace(q, r)` */
  function Replace(s: string, q: string, r: string): string
    requires q != ""
  {
    if s == "" then ""
    else if StartsWith(s, q) then r + Replace(s[|q|..], q, r)
    else [s[0]] + Replace(s[1..], q, r)
  }

  function FenceSafe(text: string): string {
    Replace(Replace(Flatten(text), OPEN, REMOVED), CLOSE, REMOVED)
  }

  lemma ReplacedStart(t: string, p: string, r: string)
    requires p != "" && r != ""
    ensures StartsWith(t, p) ==> Replace(t, p, r) != "" && Replace(t, p, r)[0] == r[0]
  {
    if StartsWith(t, p) { assert Replace(t, p, r) == r + Replace(t[|p|..], p, r); }
  }

  /** Whatever begins a replaced text without touching a replacement began the text before. */
  lemma {:induction false} StartSurvives(t: string, p: string, r: string, q: string)
    requires p != "" && r != "" && r[0] !in q && StartsWith(Replace(t, p, r), q)
    ensures StartsWith(t, q)
  {
    if q != "" {
      var out := Replace(t, p, r);
      assert out[0] == out[..|q|][0] == q[0];
      assert q[0] in q;
      ReplacedStart(t, p, r);
      assert out[1..] == Replace(t[1..], p, r);
      assert out[1..][..|q| - 1] == out[..|q|][1..] == q[1..];
      StartSurvives(t[1..], p, r, q[1..]);
      assert t[..|q|] == [t[0]] + t[1..][..|q| - 1] == [q[0]] + q[1..] == q;
    }
  }

  lemma {:induction false} CountInside(r: string, rest: string, q: string)
    requires q != "" && q[0] !in r
    ensures Count(r + rest, q) == Count(rest, q)
  {
    if r == "" {
      assert r + rest == rest;
    } else {
      assert (r + rest)[0] == r[0] && (r + rest)[1..] == r[1..] + rest;
      assert r[0] in r;
      StartMatches(r + rest, q, 0);
      CountInside(r[1..], rest, q);
    }
  }

  /** Replacing a marker leaves none of it, and makes no other. */
  lemma {:induction false} ReplaceLeavesNone(s: string, p: string, r: string, q: string)
    requires p != "" && q != "" && r != "" && r[0] !in q && q[0] !in r
    requires p == q || Free(s, q)
    ensures Free(Replace(s, p, r), q)
  {
    if s != "" {
      if StartsWith(s, p) {
        DroppingKeepsFree(s, |p|, q);
        ReplaceLeavesNone(s[|p|..], p, r, q);
        CountInside(r, Replace(s[|p|..], p, r), q);
      } else {
        ReplaceLeavesNone(s[1..], p, r, q);
        var out := Replace(s, p, r);
        assert out[1..] == Replace(s[1..], p, r);
        if StartsWith(out, q) { StartSurvives(s, p, r, q); }
      }
    }
  }

  lemma {:induction false} DroppingKeepsFree(s: string, n: nat, q: string)
    requires n <= |s|
    ensures Count(s[n..], q) <= Count(s, q)
  {
    if n > 0 {
      DroppingKeepsFree(s[1..], n - 1, q);
      assert s[1..][n - 1..] == s[n..];
    }
  }

  predicate OneLine(s: string) {
    forall c | c in s :: c == ' ' || !IsSpace(c)
  }

  lemma {:induction false} WordsAreOneLine(text: string)
    ensures OneLine(Word(text)) && OneLine(Trailing(text))
  {
    if text != "" {
      WordsAreOneLine(text[1..]);
      if !IsSpace(text[0]) {
        assert forall c | c in [text[0]] + Word(text[1..]) :: c == text[0] || c in Word(text[1..]);
        assert forall c | c in " " + Word(text) :: c == ' ' || c in Word(text);
      }
    }
  }

  lemma {:induction false} SpacedIsOneLine(text: string)
    ensures OneLine(Spaced(text, false))
  {
    if text != "" {
      if IsSpace(text[0]) { SpacedIsOneLine(text[1..]); } else {
        WordsAreOneLine(text);
        assert "" + Word(text) == Word(text);
      }
    }
  }

  lemma {:induction false} ReplacingKeepsOneLine(s: string, p: string, r: string)
    requires p != "" && OneLine(s) && OneLine(r)
    ensures OneLine(Replace(s, p, r))
  {
    if s != "" {
      if StartsWith(s, p) {
        assert forall c | c in s[|p|..] :: c in s;
        ReplacingKeepsOneLine(s[|p|..], p, r);
        assert forall c | c in r + Replace(s[|p|..], p, r) :: c in r || c in Replace(s[|p|..], p, r);
      } else {
        assert forall c | c in s[1..] :: c in s;
        ReplacingKeepsOneLine(s[1..], p, r);
        assert s[0] in s;
        assert forall c | c in [s[0]] + Replace(s[1..], p, r) :: c == s[0] || c in Replace(s[1..], p, r);
      }
    }
  }

  lemma Markers()
    ensures |OPEN| == 21 && |CLOSE| == 22 && OPEN[0] == '<' == CLOSE[0] && OPEN[1] != '/' == CLOSE[1]
    ensures forall c | c in {' ', '[', ']', ':', '\n'} :: c !in OPEN && c !in CLOSE
    ensures REMOVED[0] == '[' && '<' !in REMOVED && OneLine(REMOVED)
  {
  }

  /** Whatever the telemetry says: once made safe it holds neither marker and no line break. */
  lemma SafeTextIsSafe(text: string)
    ensures Free(FenceSafe(text), OPEN) && Free(FenceSafe(text), CLOSE) && OneLine(FenceSafe(text))
  {
    Markers();
    var flat := Flatten(text);
    SpacedIsOneLine(text);
    hide Replace, Count, StartsWith, Spaced, OneLine;
    var first := Replace(flat, OPEN, REMOVED);
    ReplacingKeepsOneLine(flat, OPEN, REMOVED);
    ReplacingKeepsOneLine(first, CLOSE, REMOVED);
    ReplaceLeavesNone(flat, OPEN, REMOVED, OPEN);
    ReplaceLeavesNone(first, CLOSE, REMOVED, OPEN);
    ReplaceLeavesNone(first, CLOSE, REMOVED, CLOSE);
  }

  // ---------------------------------------------------------------- the context

  datatype Shown = Shown(id: string, kind: string, at: string, source: string, summary: string)

  datatype Passage = Passage(id: string, mode: string, content: string)

  // Separators are single characters, so that a line reads as fields apart.
  function EvidenceLine(e: Shown): string {
    "-" + [' '] + e.id + [' '] + "" + ['['] + e.kind + [']'] + "" + [' '] + e.at + [' '] + "from" + [' '] + FenceSafe(e.source)
    + [':'] + "" + [' '] + FenceSafe(e.summary)
  }

  function PassageLine(p: Passage): string {
    "-" + [' '] + "runbook" + [' '] + p.id + [' '] + "" + ['['] + p.mode + [']'] + "" + [':'] + "" + [' '] + FenceSafe(p.content)
  }

  function EvidenceLines(evidence: seq<Shown>): seq<string> {
    if evidence == [] then [] else EvidenceLines(evidence[..|evidence| - 1]) + [EvidenceLine(evidence[|evidence| - 1])]
  }

  function PassageLines(passages: seq<Passage>): seq<string> {
    if passages == [] then [] else PassageLines(passages[..|passages| - 1]) + [PassageLine(passages[|passages| - 1])]
  }

  /** Everything between the fences. */
  function Fenced(evidence: seq<Shown>, markers: seq<string>, passages: seq<Passage>): seq<string> {
    EvidenceLines(evidence) + markers + PassageLines(passages)
  }

  /** `"\n".join(lines)` */
  function Joined(lines: seq<string>): string {
    if lines == [] then ""
    else if |lines| == 1 then lines[0]
    else lines[0] + "\n" + Joined(lines[1..])
  }

  function Context(head: seq<string>, evidence: seq<Shown>, markers: seq<string>, passages: seq<Passage>): string {
    Joined(head + [OPEN] + Fenced(evidence, markers, passages) + [CLOSE])
  }

  /** `head`: the incident, status and denied-check sections up to the evidence heading. */
  method RenderContext(head: seq<string>, evidence: seq<Shown>, markers: seq<string>, passages: seq<Passage>) returns (text: string)
    ensures text == Context(head, evidence, markers, passages)
  {
    hide EvidenceLine, PassageLine, Joined;
    var lines := head;
    lines := lines + [OPEN];
    for i := 0 to |evidence|
      invariant lines == head + [OPEN] + EvidenceLines(evidence[..i])
    {
      assert evidence[..i + 1][..i] == evidence[..i];
      lines := lines + [EvidenceLine(evidence[i])];
    }
    assert evidence[..|evidence|] == evidence;
    lines := lines + markers;
    for i := 0 to |passages|
      invariant lines == head + [OPEN] + (EvidenceLines(evidence) + markers + PassageLines(passages[..i]))
    {
      assert passages[..i + 1][..i] == passages[..i];
      lines := lines + [PassageLine(passages[i])];
    }
    assert passages[..|passages|] == passages;
    lines := lines + [CLOSE];
    return Joined(lines);
  }

  predicate Harmless(s: string) {
    Free(s, OPEN) && Free(s, CLOSE)
  }

  lemma ShortIsHarmless(s: string)
    requires |s| <= 20
    ensures Harmless(s)
  {
    Markers();
    TooShortToCount(s, OPEN);
    TooShortToCount(s, CLOSE);
  }

  /** Ids, kinds, times and modes are this program's own values. */
  predicate Own(s: string) {
    Harmless(s) && '\n' !in s
  }

  predicate OwnEvidence(e: Shown) {
    Own(e.id) && Own(e.kind) && Own(e.at)
  }

  predicate OwnPassage(p: Passage) {
    Own(p.id) && Own(p.mode)
  }

  lemma SafeIsOwn(text: string)
    ensures Own(FenceSafe(text))
  {
    SafeTextIsSafe(text);
    assert IsSpace('\n');
  }

  lemma ShortIsOwn(s: string)
    requires |s| <= 20 && '\n' !in s
    ensures Own(s)
  {
    ShortIsHarmless(s);
  }

  lemma Apart(a: string, c: char, b: string)
    requires c == ' ' || c == '[' || c == ']' || c == ':'
    requires Own(a) && Own(b)
    ensures Own(a + [c] + b)
  {
    Markers();
    CountAcross(a, c, b, OPEN);
    CountAcross(a, c, b, CLOSE);
  }

  lemma EvidenceLineIsOwn(e: Shown)
    requires OwnEvidence(e)
    ensures Own(EvidenceLine(e))
  {
    SafeIsOwn(e.source);
    SafeIsOwn(e.summary);
    ShortIsOwn("");
    ShortIsOwn("-");
    ShortIsOwn("from");
    hide Own, FenceSafe;
    var a := "-" + [' '] + e.id;
    Apart("-", ' ', e.id);
    var b := a + [' '] + "";
    Apart(a, ' ', "");
    var c := b + ['['] + e.kind;
    Apart(b, '[', e.kind);
    var d := c + [']'] + "";
    Apart(c, ']', "");
    var f := d + [' '] + e.at;
    Apart(d, ' ', e.at);
    var g := f + [' '] + "from";
    Apart(f, ' ', "from");
    var h := g + [' '] + FenceSafe(e.source);
    Apart(g, ' ', FenceSafe(e.source));
    var i := h + [':'] + "";
    Apart(h, ':', "");
    Apart(i, ' ', FenceSafe(e.summary));
  }

  lemma PassageLineIsOwn(p: Passage)
    requires OwnPassage(p)
    ensures Own(PassageLine(p))
  {
    SafeIsOwn(p.content);
    ShortIsOwn("");
    ShortIsOwn("-");
    ShortIsOwn("runbook");
    hide Own, FenceSafe;
    var a := "-" + [' '] + "runbook";
    Apart("-", ' ', "runbook");
    var b := a + [' '] + p.id;
    Apart(a, ' ', p.id);
    var c := b + [' '] + "";
    Apart(b, ' ', "");
    var d := c + ['['] + p.mode;
    Apart(c, '[', p.mode);
    var e := d + [']'] + "";
    Apart(d, ']', "");
    var f := e + [':'] + "";
    Apart(e, ':', "");
    Apart(f, ' ', FenceSafe(p.content));
  }

  lemma {:induction false} FencedLinesAreOwn(evidence: seq<Shown>, passages: seq<Passage>)
    requires forall e | e in evidence :: OwnEvidence(e)
    requires forall p | p in passages :: OwnPassage(p)
    ensures forall line | line in EvidenceLines(evidence) :: Own(line)
    ensures forall line | line in PassageLines(passages) :: Own(line)
    decreases |evidence| + |passages|
  {
    hide Own, OwnEvidence, OwnPassage, EvidenceLine, PassageLine;
    if evidence != [] {
      FencedLinesAreOwn(evidence[..|evidence| - 1], passages);
      EvidenceLineIsOwn(evidence[|evidence| - 1]);
    } else if passages != [] {
      FencedLinesAreOwn(evidence, passages[..|passages| - 1]);
      PassageLineIsOwn(passages[|passages| - 1]);
    }
  }

  /** Each line with its line break. */
  function Ended(lines: seq<string>): string {
    if lines == [] then "" else lines[0] + "\n" + Ended(lines[1..])
  }

  lemma {:induction false} JoinedBeforeTheLast(lines: seq<string>, last: string)
    ensures Joined(lines + [last]) == Ended(lines) + last
  {
    if lines != [] {
      assert (lines + [last])[0] == lines[0] && (lines + [last])[1..] == lines[1..] + [last];
      JoinedBeforeTheLast(lines[1..], last);
    }
  }

  lemma {:induction false} EndedTogether(a: seq<string>, b: seq<string>)
    ensures Ended(a + b) == Ended(a) + Ended(b)
  {
    if a == [] {
      assert a + b == b;
    } else {
      assert (a + b)[0] == a[0] && (a + b)[1..] == a[1..] + b;
      EndedTogether(a[1..], b);
    }
  }

  /** Harmless lines add nothing to the count. */
  lemma {:induction false} CountAfterEnded(lines: seq<string>, rest: string, q: string)
    requires (q == OPEN || q == CLOSE) && forall line | line in lines :: Harmless(line)
    ensures Count(Ended(lines) + rest, q) == Count(rest, q)
  {
    Markers();
    hide Count;
    if lines == [] {
      assert Ended(lines) + rest == rest;
    } else {
      CountAfterEnded(lines[1..], rest, q);
      CountAcross(lines[0], '\n', Ended(lines[1..]) + rest, q);
      assert Ended(lines) + rest == lines[0] + ['\n'] + (Ended(lines[1..]) + rest);
      assert Harmless(lines[0]);
    }
  }

  lemma MarkersApart()
    ensures Count(OPEN, OPEN) == 1 && Count(CLOSE, CLOSE) == 1 && Count(OPEN, CLOSE) == 0 && Count(CLOSE, OPEN) == 0
  {
    Markers();
    CountsItselfOnce(OPEN);
    CountsItselfOnce(CLOSE);
    TooShortToCount(OPEN, CLOSE);
    StartMatches(CLOSE, OPEN, 1);
    StartMatches(CLOSE[1..], OPEN, 0);
    TooShortToCount(CLOSE[1..][1..], OPEN);
  }

  /** Whatever evidence and passages say, the context has one opening and one closing marker, and
      every line of them lies, whole, between the two. */
  lemma TheFenceHolds(head: seq<string>, evidence: seq<Shown>, markers: seq<string>, passages: seq<Passage>, q: string)
    requires forall line | line in head + markers :: Own(line)
    requires forall e | e in evidence :: OwnEvidence(e)
    requires forall p | p in passages :: OwnPassage(p)
    requires q == OPEN || q == CLOSE
    ensures var text := Context(head, evidence, markers, passages);
            && Count(text, q) == 1
            && text == Ended(head) + OPEN + "\n" + Ended(Fenced(evidence, markers, passages)) + CLOSE
    ensures forall line | line in Fenced(evidence, markers, passages) :: Own(line)
  {
    var inside := Fenced(evidence, markers, passages);
    FencedLinesAreOwn(evidence, passages);
    assert forall line | line in inside :: Own(line);
    assert forall line | line in head :: line in head + markers;
    ContextShape(head, inside);
    CountTheFence(head, inside, q);
  }

  lemma ContextShape(head: seq<string>, inside: seq<string>)
    ensures Joined(head + [OPEN] + inside + [CLOSE]) == Ended(head) + OPEN + "\n" + Ended(inside) + CLOSE
  {
    JoinedBeforeTheLast(head + [OPEN] + inside, CLOSE);
    EndedTogether(head + [OPEN], inside);
    EndedTogether(head, [OPEN]);
    EndedAlone(OPEN);
    hide Joined, Ended;
    assert Ended(head) + (OPEN + "\n") + Ended(inside) + CLOSE == Ended(head) + OPEN + "\n" + Ended(inside) + CLOSE;
  }

  lemma EndedAlone(line: string)
    ensures Ended([line]) == line + "\n"
  {
    assert line + "\n" + "" == line + "\n";
  }

  lemma CountTheFence(head: seq<string>, inside: seq<string>, q: string)
    requires forall line | line in head :: Harmless(line)
    requires forall line | line in inside :: Harmless(line)
    requires q == OPEN || q == CLOSE
    ensures Count(Ended(head) + OPEN + "\n" + Ended(inside) + CLOSE, q) == 1
  {
    Markers();
    MarkersApart();
    hide Count, Ended, Harmless;
    CountAfterEnded(inside, CLOSE, q);
    CountAcross(OPEN, '\n', Ended(inside) + CLOSE, q);
    CountAfterEnded(head, OPEN + ['\n'] + (Ended(inside) + CLOSE), q);
    assert Ended(head) + OPEN + "\n" + Ended(inside) + CLOSE == Ended(head) + (OPEN + ['\n'] + (Ended(inside) + CLOSE));
  }
}

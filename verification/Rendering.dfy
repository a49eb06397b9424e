/** What making text safe keeps of it (`prompts.py`): its words, in order; all of a text that needs no
    change; and everything but the markers of one that does. So the model is shown what was retrieved. */
module Rendering {
  import opened Wrappers
  import opened Text
  import opened Prompts

  // ---------------------------------------------------------------- words and gaps

  predicate IsWord(s: string) {
    s != "" && forall c | c in s :: !IsSpace(c)
  }

  ghost predicate AreWords(words: seq<string>) {
    forall i | 0 <= i < |words| :: IsWord(words[i])
  }

  /** `" ".join(words)` */
  function SpaceJoin(words: seq<string>): string {
    if words == [] then "" else if |words| == 1 then words[0] else words[0] + " " + SpaceJoin(words[1..])
  }

  /** Each word after its gap, and the last gap. */
  function Weave(gaps: seq<string>, words: seq<string>): string
    requires |gaps| == |words| + 1
  {
    if words == [] then gaps[0] else gaps[0] + words[0] + Weave(gaps[1..], words[1..])
  }

  /** White space, and between two words some of it. */
  ghost predicate AreGaps(gaps: seq<string>) {
    && (forall i | 0 <= i < |gaps| :: AllSpace(gaps[i]))
    && (forall i | 0 < i < |gaps| - 1 :: gaps[i] != "")
  }

  ghost predicate Reads(text: string, gaps: seq<string>, words: seq<string>) {
    |gaps| == |words| + 1 && AreWords(words) && AreGaps(gaps) && text == Weave(gaps, words)
  }

  /** Another white-space character in front. */
  lemma WiderGap(c: char, text: string, gaps: seq<string>, words: seq<string>) returns (gaps': seq<string>)
    requires IsSpace(c) && Reads(text, gaps, words)
    ensures gaps' == [[c] + gaps[0]] + gaps[1..]
    ensures Reads([c] + text, gaps', words)
  {
    gaps' := [[c] + gaps[0]] + gaps[1..];
    assert gaps'[1..] == gaps[1..];
    forall i | 0 <= i < |gaps'| ensures AllSpace(gaps'[i]) && (0 < i < |gaps'| - 1 ==> gaps'[i] != "") {
      assert AllSpace(gaps[i]);
    }
    if words == [] {
      assert Weave(gaps', words) == [c] + Weave(gaps, words);
    } else {
      assert ([c] + gaps[0]) + words[0] + Weave(gaps[1..], words[1..]) == [c] + (gaps[0] + words[0] + Weave(gaps[1..], words[1..]));
    }
  }

  /** A character of a word in front: it begins a word, or lengthens the one that follows at once. */
  lemma LongerWord(c: char, text: string, gaps: seq<string>, words: seq<string>) returns (gaps': seq<string>, words': seq<string>)
    requires !IsSpace(c) && Reads(text, gaps, words)
    ensures Reads([c] + text, gaps', words')
    ensures gaps'[0] == "" && words' != [] && words'[0][0] == c
    ensures if gaps[0] == "" && words != [] then words' == [[c] + words[0]] + words[1..]
            else words' == [[c]] + words
  {
    if gaps[0] == "" && words != [] {
      gaps', words' := gaps, [[c] + words[0]] + words[1..];
      assert words'[1..] == words[1..];
      assert IsWord(words[0]) && IsWord([c] + words[0]);
      forall i | 0 <= i < |words'| ensures IsWord(words'[i]) { if i > 0 { assert IsWord(words[i]); } }
      assert "" + ([c] + words[0]) + Weave(gaps[1..], words[1..]) == [c] + ("" + words[0] + Weave(gaps[1..], words[1..]));
    } else {
      gaps', words' := [""] + gaps, [[c]] + words;
      assert gaps'[1..] == gaps && words'[1..] == words;
      forall i | 0 <= i < |words'| ensures IsWord(words'[i]) { if i > 0 { assert IsWord(words[i - 1]); } }
      forall i | 0 <= i < |gaps'| ensures AllSpace(gaps'[i]) && (0 < i < |gaps'| - 1 ==> gaps'[i] != "") {
        if i > 0 { assert AllSpace(gaps[i - 1]); }
      }
      assert "" + [c] + Weave(gaps, words) == [c] + text;
    }
  }

  lemma JoinFirst(word: string, words: seq<string>)
    ensures SpaceJoin([word] + words) == word + if words == [] then "" else " " + SpaceJoin(words)
  {
    assert ([word] + words)[1..] == words;
    if words != [] { assert word + " " + SpaceJoin(words) == word + (" " + SpaceJoin(words)); }
  }

  /** How any text reads, and what the three ways into `" ".join(text.split())` make of it. */
  lemma {:induction false} Reading(text: string) returns (gaps: seq<string>, words: seq<string>)
    ensures Reads(text, gaps, words)
    ensures Spaced(text, false) == SpaceJoin(words)
    ensures Trailing(text) == if words == [] then "" else " " + SpaceJoin(words)
    ensures Word(text) == if gaps[0] == "" || words == [] then SpaceJoin(words) else " " + SpaceJoin(words)
  {
    if text == "" {
      gaps, words := [""], [];
    } else {
      var c, rest := text[0], text[1..];
      assert text == [c] + rest;
      var gaps0, words0 := Reading(rest);
      if IsSpace(c) {
        gaps := WiderGap(c, rest, gaps0, words0);
        words := words0;
        assert gaps[0] == [c] + gaps0[0];
      } else {
        gaps, words := LongerWord(c, rest, gaps0, words0);
        assert Word(text) == [c] + Word(rest);
        if gaps0[0] == "" && words0 != [] {
          JoinFirst(words0[0], words0[1..]);
          JoinFirst([c] + words0[0], words0[1..]);
          assert words0 == [words0[0]] + words0[1..];
        } else {
          JoinFirst([c], words0);
        }
        assert "" + Word(text) == Word(text) && Spaced(text, false) == Word(text);
      }
    }
  }

  /** Flattening keeps the words of a text, in order, with one space between each two: the text is
      those words with white space around them, and some between each two. */
  lemma FlatteningKeepsTheWords(text: string) returns (gaps: seq<string>, words: seq<string>)
    ensures Reads(text, gaps, words)
    ensures Flatten(text) == SpaceJoin(words)
  {
    gaps, words := Reading(text);
  }

  lemma SameStart(a: string, b: string, x: string, y: string)
    requires a + x == b + y && |a| <= |b|
    ensures a == b[..|a|] && x == b[|a|..] + y
  {
    assert (a + x)[..|a|] == a && (b + y)[..|a|] == b[..|a|];
    assert (a + x)[|a|..] == x && (b + y)[|a|..] == b[|a|..] + y;
  }

  /** There is one way to read a text: its words are determined. */
  lemma {:induction false} OneReading(text: string, gaps: seq<string>, words: seq<string>, gaps': seq<string>, words': seq<string>)
    requires Reads(text, gaps, words) && Reads(text, gaps', words')
    ensures words == words'
    decreases |words|
  {
    if words == [] {
      NoWordsInSpace(text, gaps, words, gaps', words');
    } else if words' == [] {
      NoWordsInSpace(text, gaps', words', gaps, words);
    } else {
      var tail, tail' := Weave(gaps[1..], words[1..]), Weave(gaps'[1..], words'[1..]);
      assert text == gaps[0] + (words[0] + tail) == gaps'[0] + (words'[0] + tail');
      GapsEndTogether(gaps[0], words[0] + tail, gaps'[0], words'[0] + tail');
      TailIsReading(gaps, words);
      TailIsReading(gaps', words');
      WordsEndTogether(words[0], tail, words'[0], tail');
      OneReading(tail, gaps[1..], words[1..], gaps'[1..], words'[1..]);
      assert words == [words[0]] + words[1..] && words' == [words'[0]] + words'[1..];
    }
  }

  lemma TailIsReading(gaps: seq<string>, words: seq<string>)
    requires |gaps| == |words| + 1 && AreWords(words) && AreGaps(gaps) && words != []
    ensures var tail := Weave(gaps[1..], words[1..]);
            Reads(tail, gaps[1..], words[1..]) && (tail == "" || IsSpace(tail[0]))
  {
    var g, w := gaps[1..], words[1..];
    forall i | 0 <= i < |g| ensures AllSpace(g[i]) && (0 < i < |g| - 1 ==> g[i] != "") {
      assert g[i] == gaps[i + 1] && AllSpace(gaps[i + 1]);
    }
    forall i | 0 <= i < |w| ensures IsWord(w[i]) { assert w[i] == words[i + 1]; }
    assert AllSpace(g[0]);
    if w != [] {
      assert gaps[1] != "";
      assert g[0][0] in g[0];
    } else if g[0] != "" {
      assert g[0][0] in g[0];
    }
  }

  lemma AWordShows(text: string, gaps: seq<string>, words: seq<string>)
    requires Reads(text, gaps, words) && words != []
    ensures |gaps[0]| < |text| && text[|gaps[0]|] in text && !IsSpace(text[|gaps[0]|])
  {
    assert IsWord(words[0]) && words[0][0] in words[0];
    assert text[|gaps[0]|] == words[0][0];
  }

  lemma NoWordsInSpace(text: string, gaps: seq<string>, words: seq<string>, gaps': seq<string>, words': seq<string>)
    requires Reads(text, gaps, words) && Reads(text, gaps', words') && words == []
    ensures words' == []
  {
    assert AllSpace(gaps[0]) && text == gaps[0];
    if words' != [] { AWordShows(text, gaps', words'); }
  }

  lemma HeadInTheLonger(a: string, x: string, b: string, y: string)
    requires a + x == b + y && |a| < |b|
    ensures x != "" && x[0] in b
  {
    SameStart(a, b, x, y);
    assert x[0] == b[|a|];
  }

  lemma GapsEndTogether(a: string, x: string, b: string, y: string)
    requires a + x == b + y && AllSpace(a) && AllSpace(b) && x != "" && y != "" && !IsSpace(x[0]) && !IsSpace(y[0])
    ensures a == b && x == y
  {
    if |a| < |b| {
      HeadInTheLonger(a, x, b, y);
    } else if |b| < |a| {
      HeadInTheLonger(b, y, a, x);
    } else {
      SameStart(a, b, x, y);
    }
  }

  lemma WordsEndTogether(a: string, x: string, b: string, y: string)
    requires a + x == b + y && IsWord(a) && IsWord(b) && (x == "" || IsSpace(x[0])) && (y == "" || IsSpace(y[0]))
    ensures a == b && x == y
  {
    if |a| < |b| {
      HeadInTheLonger(a, x, b, y);
    } else if |b| < |a| {
      HeadInTheLonger(b, y, a, x);
    } else {
      SameStart(a, b, x, y);
    }
  }

  /** Words with single spaces between them are already flat. */
  lemma FlatStaysFlat(words: seq<string>)
    requires AreWords(words)
    ensures Flatten(SpaceJoin(words)) == SpaceJoin(words)
  {
    var gaps := JoinedReads(words);
    var gaps', words' := FlatteningKeepsTheWords(SpaceJoin(words));
    OneReading(SpaceJoin(words), gaps, words, gaps', words');
  }

  lemma {:induction false} JoinedReads(words: seq<string>) returns (gaps: seq<string>)
    requires AreWords(words)
    ensures Reads(SpaceJoin(words), gaps, words) && gaps[0] == ""
  {
    if words == [] {
      gaps := [""];
    } else {
      var rest := words[1..];
      assert forall i | 0 <= i < |rest| :: rest[i] == words[i + 1];
      var gaps0 := JoinedReads(rest);
      if rest == [] {
        gaps := ["", ""];
        assert Weave(gaps, words) == "" + words[0] + Weave([""], []) == words[0] by { assert gaps[1..] == [""] && words[1..] == []; }
      } else {
        var spaced := [" "] + gaps0[1..];
        gaps := [""] + spaced;
        assert gaps[1..] == spaced && spaced[1..] == gaps0[1..];
        forall i | 0 <= i < |gaps| ensures AllSpace(gaps[i]) && (0 < i < |gaps| - 1 ==> gaps[i] != "") {
          if i > 1 { assert gaps[i] == gaps0[i - 1]; }
        }
        assert Weave(gaps0, rest) == "" + rest[0] + Weave(gaps0[1..], rest[1..]);
        assert Weave(spaced, rest) == " " + rest[0] + Weave(gaps0[1..], rest[1..]) == " " + SpaceJoin(rest);
        assert Weave(gaps, words) == "" + words[0] + (" " + SpaceJoin(rest));
      }
    }
  }

  // ---------------------------------------------------------------- replacing

  /** The pieces with `q` between each two. */
  function Glue(pieces: seq<string>, q: string): string
    requires pieces != []
  {
    if |pieces| == 1 then pieces[0] else pieces[0] + q + Glue(pieces[1..], q)
  }

  /** `s` is the pieces with `q` between them, `t` the same pieces with `r`, and no piece holds a `q`. */
  ghost predicate Swapped(s: string, t: string, q: string, r: string, pieces: seq<string>) {
    pieces != [] && (forall i | 0 <= i < |pieces| :: Free(pieces[i], q)) && s == Glue(pieces, q) && t == Glue(pieces, r)
  }

  lemma OneMorePiece(s: string, t: string, q: string, r: string, pieces: seq<string>) returns (pieces': seq<string>)
    requires Swapped(s, t, q, r, pieces)
    ensures Swapped(q + s, r + t, q, r, pieces') && pieces'[0] == ""
  {
    hide Count;
    pieces' := [""] + pieces;
    assert pieces'[1..] == pieces;
    assert Free("", q) by { EmptyIsFree(q); }
    assert "" + q + s == q + s && "" + r + t == r + t;
  }

  lemma EmptyIsFree(q: string)
    ensures Free("", q)
  {
  }

  lemma LongerPiece(c: char, s: string, t: string, q: string, r: string, pieces: seq<string>) returns (pieces': seq<string>)
    requires Swapped(s, t, q, r, pieces) && Free([c] + pieces[0], q)
    ensures Swapped([c] + s, [c] + t, q, r, pieces') && pieces'[0] == [c] + pieces[0]
  {
    hide Count;
    var first := [c] + pieces[0];
    pieces' := [first] + pieces[1..];
    assert pieces'[1..] == pieces[1..];
    if |pieces| > 1 {
      var tail, tail' := Glue(pieces[1..], q), Glue(pieces[1..], r);
      assert [c] + (pieces[0] + q + tail) == first + q + tail;
      assert [c] + (pieces[0] + r + tail') == first + r + tail';
    }
  }

  lemma StartsLonger(first: string, s: string, q: string)
    requires first <= s
    ensures StartsWith(first, q) ==> StartsWith(s, q)
  {
    if StartsWith(first, q) { assert s[..|q|] == first[..|q|]; }
  }

  /** `s.replace(q, r)` swaps `q` for `r` between pieces in which no `q` is left, and touches none. */
  lemma {:induction false} ReplaceSwapsMarkers(s: string, q: string, r: string) returns (pieces: seq<string>)
    requires q != ""
    ensures Swapped(s, Replace(s, q, r), q, r, pieces) && pieces[0] <= s
    decreases |s|
  {
    if s == "" {
      pieces := [""];
    } else if StartsWith(s, q) {
      var rest := ReplaceSwapsMarkers(s[|q|..], q, r);
      assert s == q + s[|q|..];
      hide Swapped;
      pieces := OneMorePiece(s[|q|..], Replace(s[|q|..], q, r), q, r, rest);
    } else {
      var rest := ReplaceSwapsMarkers(s[1..], q, r);
      assert s == [s[0]] + s[1..];
      var first := [s[0]] + rest[0];
      assert first <= s && first[1..] == rest[0];
      StartsLonger(first, s, q);
      assert Free(rest[0], q);
      hide Swapped;
      pieces := LongerPiece(s[0], s[1..], Replace(s[1..], q, r), q, r, rest);
    }
  }

  lemma {:induction false} NothingToReplace(s: string, q: string, r: string)
    requires q != "" && Free(s, q)
    ensures Replace(s, q, r) == s
  {
    if s != "" { NothingToReplace(s[1..], q, r); }
  }

  /** A text without a marker loses nothing but white space; one that is single-spaced words already is
      shown as it is. */
  lemma MarkerFreeTextIsShown(text: string) returns (gaps: seq<string>, words: seq<string>)
    requires Harmless(Flatten(text))
    ensures Reads(text, gaps, words) && FenceSafe(text) == SpaceJoin(words)
  {
    gaps, words := FlatteningKeepsTheWords(text);
    NothingToReplace(Flatten(text), OPEN, REMOVED);
    NothingToReplace(Flatten(text), CLOSE, REMOVED);
  }

  lemma TidyTextIsUnchanged(words: seq<string>)
    requires AreWords(words) && Harmless(SpaceJoin(words))
    ensures FenceSafe(SpaceJoin(words)) == SpaceJoin(words)
  {
    FlatStaysFlat(words);
    NothingToReplace(SpaceJoin(words), OPEN, REMOVED);
    NothingToReplace(SpaceJoin(words), CLOSE, REMOVED);
  }

  /** And of a text with markers everything between them is kept: first the opening ones are swapped for
      the notice, then the closing ones. */
  lemma MarkedTextKeepsItsPieces(text: string)
      returns (gaps: seq<string>, words: seq<string>, opens: seq<string>, closes: seq<string>)
    ensures Reads(text, gaps, words) && opens != [] && closes != []
    ensures SpaceJoin(words) == Glue(opens, OPEN)
    ensures Glue(opens, "[removed]") == Glue(closes, CLOSE)
    ensures FenceSafe(text) == Glue(closes, "[removed]")
    ensures forall i | 0 <= i < |opens| :: Free(opens[i], OPEN)
    ensures forall i | 0 <= i < |closes| :: Free(closes[i], CLOSE)
  {
    gaps, words := FlatteningKeepsTheWords(text);
    opens := ReplaceSwapsMarkers(Flatten(text), OPEN, REMOVED);
    closes := ReplaceSwapsMarkers(Replace(Flatten(text), OPEN, REMOVED), CLOSE, REMOVED);
  }

  // ---------------------------------------------------------------- the lines

  function EvidenceText(e: Shown): string {
    "- " + e.id + " [" + e.kind + "] " + e.at + " from " + FenceSafe(e.source) + ": " + FenceSafe(e.summary)
  }

  function PassageText(p: Passage): string {
    "- runbook " + p.id + " [" + p.mode + "]: " + FenceSafe(p.content)
  }

  lemma LineFormats(e: Shown, p: Passage)
    ensures EvidenceLine(e) == EvidenceText(e) && PassageLine(p) == PassageText(p)
  {
    EvidenceFormat(e);
    PassageFormat(p);
    hide EvidenceLine, EvidenceText, PassageLine, PassageText;
  }

  lemma EvidenceFormat(e: Shown)
    ensures EvidenceLine(e) == EvidenceText(e)
  {
    hide FenceSafe;
    var a := "-" + [' '] + e.id;
    assert a == "- " + e.id;
    var b := a + [' '] + "" + ['['] + e.kind;
    assert b == a + " [" + e.kind;
    var c := b + [']'] + "" + [' '] + e.at;
    assert c == b + "] " + e.at;
    var d := c + [' '] + "from" + [' '] + FenceSafe(e.source);
    assert d == c + " from " + FenceSafe(e.source);
    assert d + [':'] + "" + [' '] + FenceSafe(e.summary) == d + ": " + FenceSafe(e.summary);
  }

  lemma PassageFormat(p: Passage)
    ensures PassageLine(p) == PassageText(p)
  {
    hide FenceSafe;
    var a := "-" + [' '] + "runbook" + [' '] + p.id;
    assert a == "- runbook " + p.id;
    var b := a + [' '] + "" + ['['] + p.mode;
    assert b == a + " [" + p.mode;
    assert b + [']'] + "" + [':'] + "" + [' '] + FenceSafe(p.content) == b + "]: " + FenceSafe(p.content);
  }

  lemma {:induction false} LinesInOrder(evidence: seq<Shown>, passages: seq<Passage>)
    ensures |EvidenceLines(evidence)| == |evidence| && |PassageLines(passages)| == |passages|
    ensures forall i | 0 <= i < |evidence| :: EvidenceLines(evidence)[i] == EvidenceLine(evidence[i])
    ensures forall i | 0 <= i < |passages| :: PassageLines(passages)[i] == PassageLine(passages[i])
    decreases |evidence| + |passages|
  {
    hide EvidenceLine, PassageLine;
    if evidence != [] {
      LinesInOrder(evidence[..|evidence| - 1], passages);
    } else if passages != [] {
      LinesInOrder(evidence, passages[..|passages| - 1]);
    }
  }

  lemma {:induction false} LineIsThere(lines: seq<string>, i: nat) returns (before: string, after: string)
    requires i < |lines|
    ensures Ended(lines) == before + lines[i] + "\n" + after
    ensures before == Ended(lines[..i]) && after == Ended(lines[i + 1..])
  {
    before, after := Ended(lines[..i]), Ended(lines[i + 1..]);
    assert lines == lines[..i] + ([lines[i]] + lines[i + 1..]);
    EndedTogether(lines[..i], [lines[i]] + lines[i + 1..]);
    EndedTogether([lines[i]], lines[i + 1..]);
    EndedAlone(lines[i]);
    hide Ended;
    assert before + ((lines[i] + "\n") + after) == before + lines[i] + "\n" + after;
  }

  /** Between the fences, one line each and in this order: every record with id, kind, time, source and
      summary, every marker, and every passage with its content. */
  lemma EverythingIsShown(head: seq<string>, evidence: seq<Shown>, markers: seq<string>, passages: seq<Passage>)
    ensures var lines := Fenced(evidence, markers, passages);
            && Context(head, evidence, markers, passages) == Ended(head) + OPEN + "\n" + Ended(lines) + CLOSE
            && |lines| == |evidence| + |markers| + |passages|
            && (forall i | 0 <= i < |evidence| :: lines[i] == EvidenceText(evidence[i]))
            && (forall i | 0 <= i < |markers| :: lines[|evidence| + i] == markers[i])
            && (forall i | 0 <= i < |passages| :: lines[|evidence| + |markers| + i] == PassageText(passages[i]))
  {
    hide FenceSafe, EvidenceLine, PassageLine, EvidenceLines, PassageLines, Joined, Ended, EvidenceText, PassageText;
    ContextShape(head, Fenced(evidence, markers, passages));
    LinesInOrder(evidence, passages);
    forall i | 0 <= i < |evidence| ensures EvidenceLine(evidence[i]) == EvidenceText(evidence[i]) {
      LineFormats(evidence[i], Passage("", "", ""));
    }
    forall i | 0 <= i < |passages| ensures PassageLine(passages[i]) == PassageText(passages[i]) {
      LineFormats(Shown("", "", "", "", ""), passages[i]);
    }
    InThreeParts(EvidenceLines(evidence), markers, PassageLines(passages));
  }

  lemma InThreeParts(a: seq<string>, b: seq<string>, c: seq<string>)
    ensures var all := a + b + c;
            && |all| == |a| + |b| + |c|
            && (forall i | 0 <= i < |a| :: all[i] == a[i])
            && (forall i | 0 <= i < |b| :: all[|a| + i] == b[i])
            && (forall i | 0 <= i < |c| :: all[|a| + |b| + i] == c[i])
  {
  }
}

/** Owner decisions: the boundary that normalises them (`approvals.py`), the shape the
    paused graph accepts on resume and the record a report publishes (`graph.py`,
    `domain.py`). */
module Decisions {
  import opened Wrappers
  import opened Text

  const MAX_NOTE := 300

  datatype Verdict = Accept | Reject

  datatype OwnerDecision = OwnerDecision(verdict: Verdict, note: Option<string>) {
    /** What `OwnerDecision`'s validators leave behind. */
    ghost predicate Valid() {
      match verdict
      case Accept => note == None
      case Reject => note.Some? && note.value != "" && Strip(note.value) == note.value && |note.value| <= MAX_NOTE
    }
  }

  /** A JSON value a caller may hand to `Command(resume=...)`. A missing or unknown
      `decision` is None. */
  datatype ResumeValue =
    | NotAMapping
    | Mapping(decision: Option<Verdict>, note: NoteValue)

  datatype NoteValue = NoNote | NotText | Text(text: string)

  /** Constructing an `OwnerDecision`: strip the note, bound its length, check the pairing. */
  function MakeDecision(verdict: Verdict, note: Option<string>): (r: Option<OwnerDecision>)
    ensures r.Some? ==> r.value.Valid() && r.value.verdict == verdict
  {
    var kept := if note.Some? && Strip(note.value) != "" then Some(Strip(note.value)) else None;
    if kept.Some? then
      StripIsIdempotent(note.value);
      if |kept.value| <= MAX_NOTE && verdict == Reject then Some(OwnerDecision(Reject, kept)) else None
    else
      if verdict == Accept then Some(OwnerDecision(Accept, None)) else None
  }

  /** `OwnerDecision.resume_value` */
  function ResumeValueOf(d: OwnerDecision): ResumeValue {
    Mapping(Some(d.verdict), if d.note.Some? then Text(d.note.value) else NoNote)
  }

  /** `_parse_resume_decision`: what the interrupt accepts; None asks again. */
  function ParseResume(v: ResumeValue): Option<OwnerDecision> {
    match v
    case Mapping(Some(Accept), NoNote) => Some(OwnerDecision(Accept, None))
    case Mapping(Some(Reject), Text(text)) =>
      if Strip(text) == "" then None else Some(OwnerDecision(Reject, Some(Strip(text))))
    case _ => None
  }

  /** `EscalationRecord`'s own validators, which the report construction runs. */
  predicate EscalationRecordAccepts(d: OwnerDecision) {
    && (d.note.Some? ==> |d.note.value| <= MAX_NOTE)
    && (d.verdict == Reject ==> d.note.Some? && !IsBlank(d.note.value))
    && (d.verdict == Accept ==> d.note == None)
  }

  /** The boundary takes an acceptance without a note and a rejection with one, judged after white space
      is taken off both ends, of at most 300 characters; it keeps that text. */
  lemma BoundaryTakesExactly(verdict: Verdict, note: Option<string>)
    ensures var said := note.Some? && !AllSpace(note.value);
            && (MakeDecision(verdict, note).Some? <==>
                  if verdict == Accept then !said else said && |Strip(note.value)| <= 300)
            && (MakeDecision(verdict, note).Some? ==>
                  MakeDecision(verdict, note).value == OwnerDecision(verdict, if said then Some(Strip(note.value)) else None))
  {
    if note.Some? { BlankExactlyWhen(note.value); }
  }

  /** The interrupt takes a mapping with a known verdict and, exactly on a rejection, a text that is not
      all white space; it keeps that text without the white space around it. Anything else asks again. */
  lemma InterruptTakesExactly(v: ResumeValue)
    ensures ParseResume(v).Some? <==>
              && v.Mapping? && v.decision.Some?
              && if v.decision.value == Accept then v.note == NoNote else v.note.Text? && !AllSpace(v.note.text)
    ensures ParseResume(v).Some? ==>
              ParseResume(v).value == OwnerDecision(v.decision.value, if v.note.Text? then Some(Strip(v.note.text)) else None)
  {
    if v.Mapping? && v.note.Text? { BlankExactlyWhen(v.note.text); }
  }

  /** A decision that passed the boundary survives storage (`_decision_from_row` validates it
      again), reaches the graph unchanged, and is accepted by the report. */
  lemma DecisionRoundTrips(d: OwnerDecision)
    requires d.Valid()
    ensures MakeDecision(d.verdict, d.note) == Some(d)
    ensures ParseResume(ResumeValueOf(d)) == Some(d)
    ensures EscalationRecordAccepts(d)
  {
  }

  /** Whatever the interrupt accepts is publishable exactly when the note it carries is short
      enough; the interrupt itself never checks the length. */
  lemma AcceptedResumeIsPublishable(v: ResumeValue)
    requires ParseResume(v).Some?
    ensures EscalationRecordAccepts(ParseResume(v).value) <==>
            (v.note.Text? ==> |Strip(v.note.text)| <= MAX_NOTE)
  {
    if v.note.Text? {
      StripIsIdempotent(v.note.text);
    }
  }

  /** An over-long note that goes round the boundary is accepted by the interrupt and refused
      by the report. */
  lemma OverlongResumeIsAcceptedButUnpublishable() returns (v: ResumeValue)
    ensures ParseResume(v).Some? && !EscalationRecordAccepts(ParseResume(v).value)
  {
    var note := seq(MAX_NOTE + 1, i => 'x');
    v := Mapping(Some(Reject), Text(note));
    assert note[0] == 'x' && note[|note| - 1] == 'x';
    assert Strip(note) == note;
  }
}

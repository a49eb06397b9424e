/** What the two ends of the connection do over whole sessions, whoever is at the other end
    (`mcp_stdio.py`). */
module McpHandshake {
  import opened Wrappers
  import opened McpStdio

  /** An operation on the client session, with whatever message the peer is claimed to have sent. */
  datatype Act =
    | AskInitialize
    | TakeGreeting(m: Message)
    | TellInitialized
    | AskTools
    | TakeTools(m: Message)
    | AskCall(body: string, approved: bool)
    | TakeAnswer(m: Message)

  function Wrote(o: Outcome<Message>): Outcome<Option<Message>> {
    if o.Accepted? then Accepted(Some(o.value)) else Refused
  }

  function Took<T>(o: Outcome<T>): Outcome<Option<Message>> {
    if o.Accepted? then Accepted(None) else Refused
  }

  /** The session afterwards and, if the operation was not refused, the message to write, if any. */
  ghost function Step(pinned: Pinned, s: Session, act: Act): (Session, Outcome<Option<Message>>) {
    match act
    case AskInitialize => var (s', o) := AskToInitialize(s); (s', Wrote(o))
    case TakeGreeting(m) => var (s', o) := ReceiveGreeting(pinned, s, m); (s', Took(o))
    case TellInitialized => var (s', o) := Notify(s); (s', Wrote(o))
    case AskTools => var (s', o) := AskForTools(s); (s', Wrote(o))
    case TakeTools(m) => var (s', o) := ReceiveTools(pinned, s, m); (s', Took(o))
    case AskCall(body, approved) => var (s', o) := AskToCall(s, body, approved); (s', Wrote(o))
    case TakeAnswer(m) => var (s', o) := ReceiveAnswer(s, m); (s', Took(o))
  }

  ghost function After(pinned: Pinned, acts: seq<Act>): Session {
    if acts == [] then FRESH else Step(pinned, After(pinned, acts[..|acts| - 1]), acts[|acts| - 1]).0
  }

  /** What the session answered to the operation at `i`. */
  ghost function Did(pinned: Pinned, acts: seq<Act>, i: nat): Outcome<Option<Message>>
    requires i < |acts|
  {
    Step(pinned, After(pinned, acts[..i]), acts[i]).1
  }

  // ---------------------------------------------------------------- facts about a history

  /** The operation at `i` wrote this request. */
  ghost predicate Asked(pinned: Pinned, acts: seq<Act>, i: nat, id: int, verb: Verb) {
    i < |acts| && exists body :: Did(pinned, acts, i) == Accepted(Some(Request(id, verb, body)))
  }

  /** `m` is the answer to the initialize request from the pinned server, in the pinned version. */
  ghost predicate Greets(pinned: Pinned, m: Message) {
    m.Response? && m.result == Greeting(PROTOCOL, pinned.server)
  }

  /** `m` lists the pinned tools and promises no more. */
  ghost predicate Lists(pinned: Pinned, m: Message) {
    m.Response? && m.result.Discovery? && !m.result.more && Verified(m.result.tools, pinned.tools)
  }

  /** Initialize was asked at `a` and answered at `b`. */
  ghost predicate GreetedBy(pinned: Pinned, acts: seq<Act>, a: nat, b: nat) {
    && a < b < |acts|
    && acts[a] == AskInitialize && acts[b].TakeGreeting? && Greets(pinned, acts[b].m)
    && Asked(pinned, acts, a, acts[b].m.id, Initialize)
  }

  ghost predicate HasGreeted(pinned: Pinned, acts: seq<Act>) {
    exists a, b :: GreetedBy(pinned, acts, a, b)
  }

  /** And the server was told at `c`. */
  ghost predicate ReadiedBy(pinned: Pinned, acts: seq<Act>, a: nat, b: nat, c: nat) {
    GreetedBy(pinned, acts, a, b) && b < c < |acts| && acts[c] == TellInitialized && Did(pinned, acts, c) == Accepted(Some(Initialized))
  }

  ghost predicate IsReadied(pinned: Pinned, acts: seq<Act>) {
    exists a, b, c :: ReadiedBy(pinned, acts, a, b, c)
  }

  /** The tools were asked for at `d` and answered at `e`. */
  ghost predicate VerifiedBy(pinned: Pinned, acts: seq<Act>, d: nat, e: nat) {
    && d < e < |acts|
    && acts[d] == AskTools && acts[e].TakeTools? && Lists(pinned, acts[e].m)
    && Asked(pinned, acts, d, acts[e].m.id, ToolsList)
    && IsReadied(pinned, acts[..d])
  }

  ghost predicate HasVerified(pinned: Pinned, acts: seq<Act>) {
    exists d, e :: VerifiedBy(pinned, acts, d, e)
  }

  predicate AsksFor(act: Act, verb: Verb) {
    match verb
    case Initialize => act == AskInitialize
    case ToolsList => act == AskTools
    case ToolsCall => act.AskCall?
  }

  /** The request asked at `i` is the last one, and is not answered yet. */
  ghost predicate OutstandingAt(pinned: Pinned, acts: seq<Act>, i: nat, id: int, verb: Verb) {
    && Asked(pinned, acts, i, id, verb) && AsksFor(acts[i], verb)
    && (verb == ToolsList ==> IsReadied(pinned, acts[..i]))
    && forall j, id', verb' :: i < j < |acts| ==> !Asked(pinned, acts, j, id', verb')
  }

  ghost predicate IsOutstanding(pinned: Pinned, acts: seq<Act>, id: int, verb: Verb) {
    exists i :: OutstandingAt(pinned, acts, i, id, verb)
  }

  /** What a session knows is what happened to it. */
  ghost predicate Truthful(pinned: Pinned, acts: seq<Act>) {
    var s := After(pinned, acts);
    && (s.state == Greeted ==> HasGreeted(pinned, acts))
    && (s.state == Ready ==> IsReadied(pinned, acts))
    && (s.verified ==> HasVerified(pinned, acts))
    && (s.pending.Some? ==> IsOutstanding(pinned, acts, s.pending.value.0, s.pending.value.1))
    && (forall i, id, verb :: Asked(pinned, acts, i, id, verb) ==> 1 <= id <= s.lastId)
  }

  // ---------------------------------------------------------------- one operation more

  lemma EarlierIsTheSame(pinned: Pinned, acts: seq<Act>, act: Act, i: nat)
    requires i < |acts|
    ensures (acts + [act])[i] == acts[i] && (acts + [act])[..i] == acts[..i] && Did(pinned, acts + [act], i) == Did(pinned, acts, i)
  {
    assert (acts + [act])[..i] == acts[..i];
  }

  lemma LastIsTheStep(pinned: Pinned, acts: seq<Act>, act: Act)
    ensures After(pinned, acts + [act]) == Step(pinned, After(pinned, acts), act).0
    ensures Did(pinned, acts + [act], |acts|) == Step(pinned, After(pinned, acts), act).1
    ensures (acts + [act])[..|acts|] == acts && (acts + [act])[|acts|] == act
  {
    assert (acts + [act])[..|acts|] == acts;
  }

  lemma EarlierAsked(pinned: Pinned, acts: seq<Act>, act: Act, i: nat, id: int, verb: Verb)
    requires i < |acts|
    ensures Asked(pinned, acts + [act], i, id, verb) <==> Asked(pinned, acts, i, id, verb)
  {
    EarlierIsTheSame(pinned, acts, act, i);
  }

  lemma HistoryStays(pinned: Pinned, acts: seq<Act>, act: Act)
    ensures HasGreeted(pinned, acts) ==> HasGreeted(pinned, acts + [act])
    ensures IsReadied(pinned, acts) ==> IsReadied(pinned, acts + [act])
    ensures HasVerified(pinned, acts) ==> HasVerified(pinned, acts + [act])
  {
    hide Did;
    var acts' := acts + [act];
    if a: nat, b: nat :| GreetedBy(pinned, acts, a, b) { GreetingStays(pinned, acts, act, a, b); }
    if a: nat, b: nat, c: nat :| ReadiedBy(pinned, acts, a, b, c) {
      GreetingStays(pinned, acts, act, a, b);
      EarlierIsTheSame(pinned, acts, act, c);
      assert ReadiedBy(pinned, acts', a, b, c);
    }
    if d: nat, e: nat :| VerifiedBy(pinned, acts, d, e) {
      EarlierIsTheSame(pinned, acts, act, d);
      EarlierIsTheSame(pinned, acts, act, e);
      EarlierAsked(pinned, acts, act, d, acts[e].m.id, ToolsList);
      hide Asked, IsReadied;
      assert VerifiedBy(pinned, acts', d, e);
    }
  }

  lemma GreetingStays(pinned: Pinned, acts: seq<Act>, act: Act, a: nat, b: nat)
    requires GreetedBy(pinned, acts, a, b)
    ensures GreetedBy(pinned, acts + [act], a, b)
  {
    EarlierIsTheSame(pinned, acts, act, a);
    EarlierIsTheSame(pinned, acts, act, b);
    EarlierAsked(pinned, acts, act, a, acts[b].m.id, Initialize);
  }

  predicate Awaits(s: Session, id: int, verb: Verb) {
    s.pending.Some? && s.pending.value.0 == id && s.pending.value.1 == verb
  }

  /** What one operation can make of a session. */
  lemma WhatChanged(pinned: Pinned, s: Session, act: Act)
    ensures var (s', o) := Step(pinned, s, act);
            && s.lastId <= s'.lastId
            && (s'.state == Greeted && s.state != Greeted ==>
                  act.TakeGreeting? && Greets(pinned, act.m) && Awaits(s, act.m.id, Initialize))
            && (s'.state == Ready && s.state != Ready ==> act == TellInitialized && s.state == Greeted && o == Accepted(Some(Initialized)))
            && (s'.verified && !s.verified ==>
                  act.TakeTools? && Lists(pinned, act.m) && Awaits(s, act.m.id, ToolsList))
            && (forall id, verb, body :: o == Accepted(Some(Request(id, verb, body))) ==>
                  && id == s.lastId + 1 == s'.lastId && AsksFor(act, verb) && s.pending == None && s'.pending == Some((s.lastId + 1, verb))
                  && (verb != Initialize ==> s.state == Ready))
            && (s'.pending != s.pending && s'.pending.Some? ==>
                  exists verb, body :: o == Accepted(Some(Request(s'.lastId, verb, body))) && s'.pending == Some((s'.lastId, verb)))
  {
  }

  lemma OutstandingStays(pinned: Pinned, acts: seq<Act>, act: Act, id: int, verb: Verb)
    requires IsOutstanding(pinned, acts, id, verb)
    requires forall id', verb' :: !Asked(pinned, acts + [act], |acts|, id', verb')
    ensures IsOutstanding(pinned, acts + [act], id, verb)
  {
    var i: nat :| OutstandingAt(pinned, acts, i, id, verb);
    hide Asked, IsReadied, Did;
    EarlierIsTheSame(pinned, acts, act, i);
    EarlierAsked(pinned, acts, act, i, id, verb);
    forall j, id', verb' | i < j < |acts + [act]| ensures !Asked(pinned, acts + [act], j, id', verb') {
      if j < |acts| { EarlierAsked(pinned, acts, act, j, id', verb'); }
    }
    assert OutstandingAt(pinned, acts + [act], i, id, verb);
  }

  lemma NewlyOutstanding(pinned: Pinned, acts: seq<Act>, act: Act, id: int, verb: Verb)
    requires Asked(pinned, acts + [act], |acts|, id, verb) && Truthful(pinned, acts)
    ensures IsOutstanding(pinned, acts + [act], id, verb)
  {
    LastIsTheStep(pinned, acts, act);
    WhatChanged(pinned, After(pinned, acts), act);
    hide IsReadied, IsOutstanding, HasVerified, HasGreeted, Step, After;
    assert OutstandingAt(pinned, acts + [act], |acts|, id, verb);
    hide OutstandingAt;
    assert exists i :: OutstandingAt(pinned, acts + [act], i, id, verb);
    OneIsOutstanding(pinned, acts + [act], |acts|, id, verb);
  }

  lemma OneIsOutstanding(pinned: Pinned, acts: seq<Act>, i: nat, id: int, verb: Verb)
    requires OutstandingAt(pinned, acts, i, id, verb)
    ensures IsOutstanding(pinned, acts, id, verb)
  {
  }

  lemma NewlyGreeted(pinned: Pinned, acts: seq<Act>, act: Act)
    requires Truthful(pinned, acts)
    ensures var s := After(pinned, acts + [act]); s.state == Greeted ==> HasGreeted(pinned, acts + [act])
  {
    LastIsTheStep(pinned, acts, act);
    HistoryStays(pinned, acts, act);
    WhatChanged(pinned, After(pinned, acts), act);
    hide IsReadied, HasVerified, Step, After;
    var s, s' := After(pinned, acts), After(pinned, acts + [act]);
    if s'.state == Greeted && s.state != Greeted {
      var a: nat :| OutstandingAt(pinned, acts, a, act.m.id, Initialize);
      EarlierIsTheSame(pinned, acts, act, a);
      EarlierAsked(pinned, acts, act, a, act.m.id, Initialize);
      hide Asked, Did;
      assert GreetedBy(pinned, acts + [act], a, |acts|);
    }
  }

  lemma NewlyReady(pinned: Pinned, acts: seq<Act>, act: Act)
    requires Truthful(pinned, acts)
    ensures var s := After(pinned, acts + [act]); s.state == Ready ==> IsReadied(pinned, acts + [act])
  {
    LastIsTheStep(pinned, acts, act);
    HistoryStays(pinned, acts, act);
    WhatChanged(pinned, After(pinned, acts), act);
    hide HasVerified, IsOutstanding, Step, After;
    var s, s' := After(pinned, acts), After(pinned, acts + [act]);
    if s'.state == Ready && s.state != Ready {
      var a: nat, b: nat :| GreetedBy(pinned, acts, a, b);
      GreetingStays(pinned, acts, act, a, b);
      hide GreetedBy;
      assert GreetedBy(pinned, acts, a, b) ==> b < |acts| by { GreetedInside(pinned, acts, a, b); }
      assert ReadiedBy(pinned, acts + [act], a, b, |acts|);
    }
  }

  lemma GreetedInside(pinned: Pinned, acts: seq<Act>, a: nat, b: nat)
    requires GreetedBy(pinned, acts, a, b)
    ensures a < b < |acts|
  {
  }

  lemma NewlyVerified(pinned: Pinned, acts: seq<Act>, act: Act)
    requires Truthful(pinned, acts)
    ensures var s := After(pinned, acts + [act]); s.verified ==> HasVerified(pinned, acts + [act])
  {
    LastIsTheStep(pinned, acts, act);
    HistoryStays(pinned, acts, act);
    WhatChanged(pinned, After(pinned, acts), act);
    hide IsReadied, HasGreeted, Step, After;
    var s, s' := After(pinned, acts), After(pinned, acts + [act]);
    if s'.verified && !s.verified {
      var d: nat :| OutstandingAt(pinned, acts, d, act.m.id, ToolsList);
      EarlierIsTheSame(pinned, acts, act, d);
      EarlierAsked(pinned, acts, act, d, act.m.id, ToolsList);
      hide Asked, Did;
      assert VerifiedBy(pinned, acts + [act], d, |acts|);
    }
  }

  lemma IdsGrow(pinned: Pinned, acts: seq<Act>, act: Act, i: nat, id: int, verb: Verb)
    requires Truthful(pinned, acts) && Asked(pinned, acts + [act], i, id, verb)
    ensures 1 <= id <= After(pinned, acts + [act]).lastId
    ensures i == |acts| ==> id == After(pinned, acts).lastId + 1
  {
    LastIsTheStep(pinned, acts, act);
    WhatChanged(pinned, After(pinned, acts), act);
    if i < |acts| {
      EarlierAsked(pinned, acts, act, i, id, verb);
    }
  }

  lemma StillTruthful(pinned: Pinned, acts: seq<Act>, act: Act)
    requires Truthful(pinned, acts)
    ensures Truthful(pinned, acts + [act])
  {
    NewlyGreeted(pinned, acts, act);
    NewlyReady(pinned, acts, act);
    NewlyVerified(pinned, acts, act);
    var s' := After(pinned, acts + [act]);
    forall i, id, verb | Asked(pinned, acts + [act], i, id, verb) ensures 1 <= id <= s'.lastId {
      IdsGrow(pinned, acts, act, i, id, verb);
    }
    if s'.pending.Some? {
      PendingIsOutstanding(pinned, acts, act);
    }
  }

  lemma PendingIsOutstanding(pinned: Pinned, acts: seq<Act>, act: Act)
    requires Truthful(pinned, acts) && After(pinned, acts + [act]).pending.Some?
    ensures var p := After(pinned, acts + [act]).pending.value; IsOutstanding(pinned, acts + [act], p.0, p.1)
  {
    LastIsTheStep(pinned, acts, act);
    var s, s' := After(pinned, acts), After(pinned, acts + [act]);
    var o := Step(pinned, s, act).1;
    WhatChanged(pinned, s, act);
    hide IsReadied, HasGreeted, HasVerified, IsOutstanding, Step, After;
    if s'.pending != s.pending {
      var verb, body :| o == Accepted(Some(Request(s'.lastId, verb, body)));
      NewlyOutstanding(pinned, acts, act, s'.lastId, verb);
    } else {
      OutstandingStays(pinned, acts, act, s.pending.value.0, s.pending.value.1);
    }
  }

  lemma {:induction false} SessionsAreTruthful(pinned: Pinned, acts: seq<Act>)
    ensures Truthful(pinned, acts)
  {
    if acts != [] {
      SessionsAreTruthful(pinned, acts[..|acts| - 1]);
      StillTruthful(pinned, acts[..|acts| - 1], acts[|acts| - 1]);
      assert acts == acts[..|acts| - 1] + [acts[|acts| - 1]];
    }
  }

  // ---------------------------------------------------------------- the theorems

  /** Whatever the peer sends, and in whatever order the session is used, a call leaves it only after an
      answer to its own initialize request in the pinned version from the pinned server, the
      notification, and an answer to its own later discovery request that lists the pinned tools. */
  lemma CallsFollowTheHandshake(pinned: Pinned, acts: seq<Act>, i: nat)
    requires i < |acts| && acts[i].AskCall? && Did(pinned, acts, i).Accepted?
    ensures acts[i].approved
    ensures exists d, e :: VerifiedBy(pinned, acts[..i], d, e)
  {
    SessionsAreTruthful(pinned, acts[..i]);
    assert After(pinned, acts[..i]).verified;
    assert HasVerified(pinned, acts[..i]);
  }

  /** Ids are never used twice, and an unanswered request is the only one. */
  lemma IdsAreFresh(pinned: Pinned, acts: seq<Act>, i: nat, j: nat, id: int, verb: Verb, id': int, verb': Verb)
    requires i < j && Asked(pinned, acts, i, id, verb) && Asked(pinned, acts, j, id', verb')
    ensures id < id'
  {
    SessionsAreTruthful(pinned, acts[..j]);
    var before := acts[..j];
    assert acts[..j + 1] == before + [acts[j]];
    assert acts[..i] == before[..i];
    assert Asked(pinned, before, i, id, verb);
    assert (before + [acts[j]])[..j] == before;
    assert Asked(pinned, before + [acts[j]], j, id', verb');
    IdsGrow(pinned, before, acts[j], j, id', verb');
  }

  /** An accepted answer carries the id of the last request, which was a call, and is not an error. */
  lemma AnswersAreToTheLastCall(pinned: Pinned, acts: seq<Act>, i: nat)
    requires i < |acts| && acts[i].TakeAnswer? && Did(pinned, acts, i).Accepted?
    ensures acts[i].m.Response? && acts[i].m.result.Answer? && !acts[i].m.result.isError
    ensures exists c :: OutstandingAt(pinned, acts[..i], c, acts[i].m.id, ToolsCall)
  {
    SessionsAreTruthful(pinned, acts[..i]);
    var p := After(pinned, acts[..i]).pending;
    assert p == Some((p.value.0, ToolsCall)) && acts[i].m.id == p.value.0;
    assert IsOutstanding(pinned, acts[..i], p.value.0, ToolsCall);
  }

  predicate Carries(act: Act, id: int) {
    (act.TakeGreeting? || act.TakeTools? || act.TakeAnswer?) && act.m.Response? && act.m.id == id
  }

  /** Until a response with its id is taken, a request stays the outstanding one and no other is made. */
  lemma {:induction false} OneAtATime(pinned: Pinned, acts: seq<Act>, i: nat, id: int, verb: Verb)
    requires Asked(pinned, acts, i, id, verb) && forall k | i < k < |acts| :: !Carries(acts[k], id)
    ensures Awaits(After(pinned, acts), id, verb)
    ensures forall k, id', verb' | i < k < |acts| :: !Asked(pinned, acts, k, id', verb')
  {
    var n := |acts| - 1;
    var before, act := acts[..n], acts[n];
    assert acts == before + [act];
    LastIsTheStep(pinned, before, act);
    WhatChanged(pinned, After(pinned, before), act);
    if i < n {
      EarlierAsked(pinned, before, act, i, id, verb);
      OneAtATime(pinned, before, i, id, verb);
      WaitingGoesOn(pinned, After(pinned, before), act, id, verb);
      hide After, Step, Asked;
      forall k, id', verb' | i < k < |acts| ensures !Asked(pinned, acts, k, id', verb') {
        if k < n { EarlierAsked(pinned, before, act, k, id', verb'); } else { NothingAsked(pinned, before, act, id', verb'); }
      }
    }
  }

  lemma WaitingGoesOn(pinned: Pinned, s: Session, act: Act, id: int, verb: Verb)
    requires Awaits(s, id, verb) && !Carries(act, id)
    ensures Awaits(Step(pinned, s, act).0, id, verb)
  {
  }

  lemma NothingAsked(pinned: Pinned, acts: seq<Act>, act: Act, id: int, verb: Verb)
    requires After(pinned, acts).pending.Some?
    ensures !Asked(pinned, acts + [act], |acts|, id, verb)
  {
    LastIsTheStep(pinned, acts, act);
    WhatChanged(pinned, After(pinned, acts), act);
  }

  // ---------------------------------------------------------------- the pin

  lemma HeadIsNew(tools: seq<Tool>)
    requires Distinct(tools) && tools != []
    ensures forall i | 0 < i < |tools| :: tools[i] != tools[0]
    ensures tools[0] !in tools[1..]
  {
    assert forall i | 0 < i < |tools| :: tools[0].name != tools[i].name;
  }

  lemma {:induction false} DistinctIsOnce(tools: seq<Tool>, t: Tool)
    requires Distinct(tools)
    ensures multiset(tools)[t] <= 1
  {
    if tools != [] {
      var rest, first := tools[1..], tools[0];
      assert tools == [first] + rest;
      assert forall i | 0 <= i < |rest| :: rest[i] == tools[i + 1];
      DistinctIsOnce(rest, t);
      HeadIsNew(tools);
    }
  }

  lemma TwiceIsTwo(tools: seq<Tool>, i: nat, j: nat)
    requires i < j < |tools| && tools[i] == tools[j]
    ensures multiset(tools)[tools[i]] >= 2
  {
    assert tools == tools[..j] + tools[j..];
    assert tools[..j][i] == tools[i] && tools[j..][0] == tools[j];
  }

  lemma SamePinnedTool(tools: seq<Tool>, a: Tool, b: Tool)
    requires Distinct(tools) && a in tools && b in tools && a.name == b.name
    ensures a == b
  {
    var i :| 0 <= i < |tools| && tools[i] == a;
    var j :| 0 <= j < |tools| && tools[j] == b;
    assert i == j;
  }

  /** A discovery passes exactly when it is the pinned tools, each once, in any order. */
  lemma VerifiedExactlyWhenPinned(discovered: seq<Tool>, pinned: seq<Tool>)
    requires Distinct(pinned)
    ensures Verified(discovered, pinned) <==> multiset(discovered) == multiset(pinned)
  {
    if Verified(discovered, pinned) {
      forall t ensures multiset(discovered)[t] == multiset(pinned)[t] {
        DistinctIsOnce(discovered, t);
        DistinctIsOnce(pinned, t);
        if t in discovered {
          assert t.name in Names(discovered) && t.name in Names(pinned);
          var p :| p in pinned && p.name == t.name;
          assert p == t;
        }
        if t in pinned {
          assert t.name in Names(pinned) && t.name in Names(discovered);
          var d :| d in discovered && d.name == t.name;
          assert d == t;
        }
      }
    }
    if multiset(discovered) == multiset(pinned) {
      assert forall t :: t in discovered <==> t in multiset(discovered) <==> t in multiset(pinned) <==> t in pinned;
      assert Names(discovered) == Names(pinned);
      forall i, j | 0 <= i < j < |discovered| ensures discovered[i].name != discovered[j].name {
        if discovered[i].name == discovered[j].name {
          SamePinnedTool(pinned, discovered[i], discovered[j]);
          TwiceIsTwo(discovered, i, j);
          DistinctIsOnce(pinned, discovered[i]);
        }
      }
      forall d, p | d in discovered && p in pinned && d.name == p.name ensures d.schema == p.schema {
        SamePinnedTool(pinned, d, p);
      }
    }
  }

  // ---------------------------------------------------------------- the server

  /** A message as it arrives, with what the executor would make of a call. */
  datatype Incoming = Incoming(m: Message, text: string, isError: bool)

  function Serving(pinned: Pinned, incoming: seq<Incoming>): State {
    if incoming == [] then New
    else
      var n := |incoming| - 1;
      Serve(pinned, Serving(pinned, incoming[..n]), incoming[n].m, incoming[n].text, incoming[n].isError).0
  }

  function Reply(pinned: Pinned, incoming: seq<Incoming>, i: nat): Option<Message>
    requires i < |incoming|
  {
    Serve(pinned, Serving(pinned, incoming[..i]), incoming[i].m, incoming[i].text, incoming[i].isError).1
  }

  predicate Opens(m: Message) {
    m.Request? && m.verb == Initialize && m.body == PROTOCOL
  }

  ghost predicate WasOpened(incoming: seq<Incoming>) {
    exists a :: 0 <= a < |incoming| && Opens(incoming[a].m)
  }

  /** The client initialized, and said so afterwards. */
  ghost predicate WasReadied(incoming: seq<Incoming>) {
    exists a, b :: 0 <= a < b < |incoming| && Opens(incoming[a].m) && incoming[b].m == Initialized
  }

  lemma OneMoreOpens(before: seq<Incoming>, next: Incoming)
    ensures WasOpened(before + [next]) <==> WasOpened(before) || Opens(next.m)
  {
    var all := before + [next];
    if a :| 0 <= a < |before| && Opens(before[a].m) { assert Opens(all[a].m); }
    if Opens(next.m) { assert Opens(all[|before|].m); }
    if a :| 0 <= a < |all| && Opens(all[a].m) {
      if a < |before| { assert Opens(before[a].m); }
    }
  }

  lemma OneMoreReadies(before: seq<Incoming>, next: Incoming)
    ensures WasReadied(before + [next]) <==> WasReadied(before) || (WasOpened(before) && next.m == Initialized)
  {
    var all := before + [next];
    if a, b :| 0 <= a < b < |before| && Opens(before[a].m) && before[b].m == Initialized {
      assert Opens(all[a].m) && all[b].m == Initialized;
    }
    if a :| 0 <= a < |before| && Opens(before[a].m) && next.m == Initialized {
      assert Opens(all[a].m) && all[|before|].m == Initialized;
    }
    if a, b :| 0 <= a < b < |all| && Opens(all[a].m) && all[b].m == Initialized {
      assert Opens(before[a].m);
      if b < |before| { assert before[b].m == Initialized; }
    }
  }

  lemma {:induction false} ServerStates(pinned: Pinned, incoming: seq<Incoming>)
    ensures Serving(pinned, incoming) == if WasReadied(incoming) then Ready else if WasOpened(incoming) then Greeted else New
  {
    if incoming != [] {
      var n := |incoming| - 1;
      var before, next := incoming[..n], incoming[n];
      assert incoming == before + [next];
      ServerStates(pinned, before);
      OneMoreOpens(before, next);
      OneMoreReadies(before, next);
      if WasReadied(before) { ReadiedWasOpened(before); }
      hide WasOpened, WasReadied;
    }
  }

  /** Whatever the client sends: initialize is answered the first time it names the pinned version,
      discovery and calls exactly after that and the notification, and nothing else at all. Every
      response carries its request's id; a call's is the executor's answer to that very call. */
  lemma ServedExactlyAfterTheHandshake(pinned: Pinned, incoming: seq<Incoming>, i: nat)
    requires i < |incoming|
    ensures var m, before, reply := incoming[i].m, incoming[..i], Reply(pinned, incoming, i);
            reply ==
              if !m.Request? then None
              else if m.verb == Initialize then
                if Opens(m) && !WasOpened(before) then Some(Response(m.id, Greeting(PROTOCOL, pinned.server))) else None
              else if !WasReadied(before) then None
              else if m.verb == ToolsList then Some(Response(m.id, Discovery(pinned.tools, false)))
              else Some(Response(m.id, Answer(m.body, incoming[i].text, incoming[i].isError)))
  {
    ServerStates(pinned, incoming[..i]);
    if WasReadied(incoming[..i]) { ReadiedWasOpened(incoming[..i]); }
  }

  lemma ReadiedWasOpened(incoming: seq<Incoming>)
    requires WasReadied(incoming)
    ensures WasOpened(incoming)
  {
  }

  // ---------------------------------------------------------------- the two ends together

  /** Between the client and a server of the same build, nothing is refused and the handshake completes. */
  lemma TheEndsAgree(pinned: Pinned)
    requires Distinct(pinned.tools)
    ensures var (s1, o1) := AskToInitialize(FRESH);
            && o1.Accepted?
            && var (t1, r1) := Serve(pinned, New, o1.value, "", false);
            && r1.Some?
            && var (s2, o2) := ReceiveGreeting(pinned, s1, r1.value);
            var (s3, o3) := Notify(s2);
            && o2.Accepted? && o3.Accepted?
            && var (t2, r2) := Serve(pinned, t1, o3.value, "", false);
            var (s4, o4) := AskForTools(s3);
            && o4.Accepted?
            && var (t3, r3) := Serve(pinned, t2, o4.value, "", false);
            && r3.Some?
            && var (s5, o5) := ReceiveTools(pinned, s4, r3.value);
            && o5.Accepted? && IdleTogether(s5, t3)
  {
  }

  /** Both ends are ready for another call. */
  predicate IdleTogether(s: Session, server: State) {
    s.state == Ready && s.verified && s.pending == None && server == Ready
  }

  /** One call after another: what the executor makes of each, and what the client gets for it. */
  function Converse(pinned: Pinned, s: Session, server: State, calls: seq<(string, string)>): seq<Outcome<Result>>
    decreases |calls|
  {
    if calls == [] then []
    else
      var (s1, request) := AskToCall(s, calls[0].0, true);
      if request.Refused? then [Refused] + Converse(pinned, s1, server, calls[1..])
      else
        var (server1, reply) := Serve(pinned, server, request.value, calls[0].1, false);
        if reply.None? then [Refused] + Converse(pinned, s1, server1, calls[1..])
        else
          var (s2, answer) := ReceiveAnswer(s1, reply.value);
          [answer] + Converse(pinned, s2, server1, calls[1..])
  }

  lemma {:induction false} EveryCallGetsItsAnswer(pinned: Pinned, s: Session, server: State, calls: seq<(string, string)>)
    requires IdleTogether(s, server)
    ensures Converse(pinned, s, server, calls) == seq(|calls|, i requires 0 <= i < |calls| => Accepted(Answer(calls[i].0, calls[i].1, false)))
    decreases |calls|
  {
    if calls != [] {
      var (s1, request) := AskToCall(s, calls[0].0, true);
      var (server1, reply) := Serve(pinned, server, request.value, calls[0].1, false);
      var (s2, answer) := ReceiveAnswer(s1, reply.value);
      EveryCallGetsItsAnswer(pinned, s2, server1, calls[1..]);
      assert answer == Accepted(Answer(calls[0].0, calls[0].1, false));
    }
  }
}

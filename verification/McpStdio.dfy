/** The two ends of the stdio connection (`mcp_stdio.py`): a client session that keeps at most one
    request outstanding, and a server that serves calls only after the handshake. */
module McpStdio {
  import opened Wrappers

  const PROTOCOL := "2025-11-25"

  datatype Verb = Initialize | ToolsList | ToolsCall

  datatype Tool = Tool(name: string, schema: string)

  /** `asked` is the call an answer was computed for; it is not on the wire and nobody reads it. */
  datatype Result =
    | Greeting(version: string, server: string)
    | Discovery(tools: seq<Tool>, more: bool)
    | Answer(asked: string, text: string, isError: bool)
    | NoObject

  datatype Message =
    | Request(id: int, verb: Verb, body: string)
    | Initialized
    | Response(id: int, result: Result)

  /** What this build was reviewed with: the server's identity and the tools it may offer. */
  datatype Pinned = Pinned(server: string, tools: seq<Tool>)

  function Names(tools: seq<Tool>): set<string> {
    set t | t in tools :: t.name
  }

  ghost predicate Distinct(tools: seq<Tool>) {
    forall i, j | 0 <= i < j < |tools| :: tools[i].name != tools[j].name
  }

  /** `verify_discovered_tools`: no name twice, the same names, the same schemas. */
  ghost predicate Verified(discovered: seq<Tool>, pinned: seq<Tool>) {
    && Distinct(discovered)
    && Names(discovered) == Names(pinned)
    && forall d, p | d in discovered && p in pinned && d.name == p.name :: d.schema == p.schema
  }

  datatype State = New | Initializing | Greeted | Ready

  datatype Session = Session(state: State, lastId: nat, pending: Option<(nat, Verb)>, verified: bool)

  const FRESH: Session := Session(New, 0, None, false)

  /** A refused operation may still have changed the session. */
  datatype Outcome<T> = Accepted(value: T) | Refused

  function Ask(s: Session, verb: Verb, body: string): (Session, Outcome<Message>) {
    if s.pending.Some? then (s, Refused)
    else (s.(lastId := s.lastId + 1, pending := Some((s.lastId + 1, verb))), Accepted(Request(s.lastId + 1, verb, body)))
  }

  /** `_response` */
  function Receive(s: Session, m: Message, verb: Verb): (Session, Outcome<Result>) {
    if s.pending.None? || s.pending.value.1 != verb then (s, Refused)
    else if !m.Response? || m.id != s.pending.value.0 then (s, Refused)
    else if m.result.NoObject? then (s.(pending := None), Refused)
    else (s.(pending := None), Accepted(m.result))
  }

  function AskToInitialize(s: Session): (Session, Outcome<Message>) {
    if s.state != New then (s, Refused) else Ask(s.(state := Initializing), Initialize, PROTOCOL)
  }

  function ReceiveGreeting(pinned: Pinned, s: Session, m: Message): (Session, Outcome<()>) {
    var (s', r) := Receive(s, m, Initialize);
    if r.Refused? || !r.value.Greeting? || r.value.version != PROTOCOL || r.value.server != pinned.server then (s', Refused)
    else (s'.(state := Greeted), Accepted(()))
  }

  function Notify(s: Session): (Session, Outcome<Message>) {
    if s.state != Greeted then (s, Refused) else (s.(state := Ready), Accepted(Initialized))
  }

  function AskForTools(s: Session): (Session, Outcome<Message>) {
    if s.state != Ready then (s, Refused) else Ask(s, ToolsList, "")
  }

  ghost function ReceiveTools(pinned: Pinned, s: Session, m: Message): (Session, Outcome<()>) {
    var (s', r) := Receive(s, m, ToolsList);
    if r.Refused? || !r.value.Discovery? || r.value.more || !Verified(r.value.tools, pinned.tools) then (s', Refused)
    else (s'.(verified := true), Accepted(()))
  }

  /** `approved`: the arguments passed the strict schema and name the same tool. */
  function AskToCall(s: Session, body: string, approved: bool): (Session, Outcome<Message>) {
    if s.state != Ready || !s.verified || !approved then (s, Refused) else Ask(s, ToolsCall, body)
  }

  function ReceiveAnswer(s: Session, m: Message): (Session, Outcome<Result>) {
    var (s', r) := Receive(s, m, ToolsCall);
    if r.Refused? || !r.value.Answer? || r.value.isError then (s', Refused) else (s', r)
  }

  /** `McpObservabilityServer.handle`: the response, if there is one; an error is only logged. `text`
      and `isError` are what the executor makes of the call. */
  function Serve(pinned: Pinned, state: State, m: Message, text: string, isError: bool): (State, Option<Message>) {
    match m
    case Initialized => (if state == Greeted then Ready else state, None)
    case Response(_, _) => (state, None)
    case Request(id, Initialize, version) =>
      if state != New || version != PROTOCOL then (state, None)
      else (Greeted, Some(Response(id, Greeting(PROTOCOL, pinned.server))))
    case Request(id, ToolsList, _) =>
      if state != Ready then (state, None) else (state, Some(Response(id, Discovery(pinned.tools, false))))
    case Request(id, ToolsCall, body) =>
      if state != Ready then (state, None) else (state, Some(Response(id, Answer(body, text, isError))))
  }

  /** The session as the object it is. */
  class McpStdioSession {
    const pinned: Pinned
    var state: State
    var requestId: nat
    var pending: Option<(nat, Verb)>
    var manifest: Option<seq<Tool>>

    function Now(): Session
      reads this
    {
      Session(state, requestId, pending, manifest.Some?)
    }

    constructor (pinned: Pinned)
      ensures this.pinned == pinned && Now() == FRESH
    {
      this.pinned := pinned;
      state, requestId, pending, manifest := New, 0, None, None;
    }

    /** `_request` */
    method Send(verb: Verb, body: string) returns (r: Outcome<Message>)
      modifies this
      ensures (Now(), r) == Ask(old(Now()), verb, body) && manifest == old(manifest)
    {
      if pending.Some? {
        return Refused;
      }
      requestId := requestId + 1;
      pending := Some((requestId, verb));
      return Accepted(Request(requestId, verb, body));
    }

    /** `_response` */
    method Take(m: Message, verb: Verb) returns (r: Outcome<Result>)
      modifies this
      ensures (Now(), r) == Receive(old(Now()), m, verb) && manifest == old(manifest)
    {
      if pending.None? || pending.value.1 != verb {
        return Refused;
      }
      if !m.Response? || m.id != pending.value.0 {
        return Refused;
      }
      pending := None;
      if m.result.NoObject? {
        return Refused;
      }
      return Accepted(m.result);
    }

    method InitializeRequest() returns (r: Outcome<Message>)
      modifies this
      ensures (Now(), r) == AskToInitialize(old(Now()))
    {
      if state != New {
        return Refused;
      }
      state := Initializing;
      r := Send(Initialize, PROTOCOL);
    }

    method AcceptInitializeResponse(m: Message) returns (r: Outcome<()>)
      modifies this
      ensures (Now(), r) == ReceiveGreeting(pinned, old(Now()), m)
    {
      var result := Take(m, Initialize);
      if result.Refused? || !result.value.Greeting? || result.value.version != PROTOCOL || result.value.server != pinned.server {
        return Refused;
      }
      state := Greeted;
      return Accepted(());
    }

    method InitializedNotification() returns (r: Outcome<Message>)
      modifies this
      ensures (Now(), r) == Notify(old(Now()))
    {
      if state != Greeted {
        return Refused;
      }
      state := Ready;
      return Accepted(Initialized);
    }

    method ToolsListRequest() returns (r: Outcome<Message>)
      modifies this
      ensures (Now(), r) == AskForTools(old(Now()))
    {
      if state != Ready {
        return Refused;
      }
      r := Send(ToolsList, "");
    }

    method AcceptToolsListResponse(m: Message) returns (r: Outcome<()>)
      modifies this
      ensures (Now(), r) == ReceiveTools(pinned, old(Now()), m)
      ensures r.Accepted? ==> manifest == Some(pinned.tools)
    {
      var result := Take(m, ToolsList);
      if result.Refused? || !result.value.Discovery? || result.value.more {
        return Refused;
      }
      var ok := VerifyDiscoveredTools(result.value.tools, pinned.tools);
      if !ok {
        return Refused;
      }
      manifest := Some(pinned.tools);
      return Accepted(());
    }

    method ToolCallRequest(body: string, approved: bool) returns (r: Outcome<Message>)
      modifies this
      ensures (Now(), r) == AskToCall(old(Now()), body, approved)
    {
      if state != Ready || manifest.None? || !approved {
        return Refused;
      }
      r := Send(ToolsCall, body);
    }

    method AcceptToolCallResponse(m: Message) returns (r: Outcome<Result>)
      modifies this
      ensures (Now(), r) == ReceiveAnswer(old(Now()), m)
    {
      r := Take(m, ToolsCall);
      if r.Refused? || !r.value.Answer? || r.value.isError {
        return Refused;
      }
    }
  }

  ghost predicate Tabulates(table: map<string, string>, tools: seq<Tool>) {
    table.Keys == Names(tools) && forall t | t in tools :: t.name in table && table[t.name] == t.schema
  }

  method Tabulate(tools: seq<Tool>) returns (table: Option<map<string, string>>)
    ensures table.Some? <==> Distinct(tools)
    ensures table.Some? ==> Tabulates(table.value, tools)
  {
    var actual: map<string, string> := map[];
    for i := 0 to |tools|
      invariant Distinct(tools[..i]) && Tabulates(actual, tools[..i])
    {
      var tool := tools[i];
      var before, after := tools[..i], tools[..i + 1];
      assert after == before + [tool];
      assert Names(after) == Names(before) + {tool.name};
      if tool.name in actual {
        var t :| t in before && t.name == tool.name;
        var j :| 0 <= j < i && tools[j] == t;
        assert tools[j].name == tools[i].name;
        return None;
      }
      assert forall t | t in before :: t.name != tool.name;
      actual := actual[tool.name := tool.schema];
    }
    assert tools[..|tools|] == tools;
    return Some(actual);
  }

  method Matches(table: map<string, string>, pinned: seq<Tool>) returns (ok: bool)
    ensures ok <==> table.Keys == Names(pinned) && forall p | p in pinned :: table[p.name] == p.schema
  {
    if table.Keys != Names(pinned) {
      return false;
    }
    assert forall p | p in pinned :: p.name in Names(pinned);
    for i := 0 to |pinned|
      invariant forall j | 0 <= j < i :: table[pinned[j].name] == pinned[j].schema
    {
      if table[pinned[i].name] != pinned[i].schema {
        return false;
      }
    }
    return true;
  }

  lemma TableDecides(table: map<string, string>, discovered: seq<Tool>, pinned: seq<Tool>)
    requires Distinct(discovered) && Tabulates(table, discovered)
    ensures Verified(discovered, pinned) <==> table.Keys == Names(pinned) && forall p | p in pinned :: table[p.name] == p.schema
  {
    if table.Keys == Names(pinned) {
      forall p | p in pinned ensures p.name in table && exists d :: d in discovered && d.name == p.name && d.schema == table[p.name] {
        assert p.name in Names(pinned);
        var d :| d in discovered && d.name == p.name;
      }
    }
  }

  /** `verify_discovered_tools`: tabulate what was discovered, then compare. */
  method VerifyDiscoveredTools(discovered: seq<Tool>, pinned: seq<Tool>) returns (ok: bool)
    ensures ok <==> Verified(discovered, pinned)
  {
    var table := Tabulate(discovered);
    if table.None? {
      return false;
    }
    TableDecides(table.value, discovered, pinned);
    ok := Matches(table.value, pinned);
  }

  /** The server as the object it is. */
  class McpObservabilityServer {
    const pinned: Pinned
    var state: State

    constructor (pinned: Pinned)
      ensures this.pinned == pinned && state == New
    {
      this.pinned := pinned;
      state := New;
    }

    method Handle(m: Message, text: string, isError: bool) returns (r: Option<Message>)
      modifies this
      ensures (state, r) == Serve(pinned, old(state), m, text, isError)
    {
      match m
      case Initialized =>
        if state == Greeted {
          state := Ready;
        }
        return None;
      case Response(_, _) => return None;
      case Request(id, Initialize, version) =>
        if state != New || version != PROTOCOL {
          return None;
        }
        state := Greeted;
        return Some(Response(id, Greeting(PROTOCOL, pinned.server)));
      case Request(id, ToolsList, _) =>
        return if state != Ready then None else Some(Response(id, Discovery(pinned.tools, false)));
      case Request(id, ToolsCall, body) =>
        return if state != Ready then None else Some(Response(id, Answer(body, text, isError)));
    }
  }
}

/** The supervised child (`mcp_child_process.py`): client session, pipes, reader threads, timeouts,
    death and respawn, interleaved in any order. */
module McpChild {
  import opened Wrappers
  import opened McpStdio

  /** A line of stdout, or its end. `from` numbers the child that wrote it; it is not on the wire. */
  datatype Item = Line(from: nat, message: Message) | Eof(from: nat)

  /** What a caller got back; `own`: the line was written by the child it was asked of. */
  datatype Returned = Returned(body: string, result: Result, own: bool)

  /** `inbox`: written to the child and not handled yet. `pipe`: written by the child and not drained
      yet. `stale`: what reader threads of replaced children can still put into the queue, because
      joining them timed out. `reading`: somebody waits in `_read_one`. `asking`: the body of the last
      call. `bodies`: what the current child was asked under each id. */
  datatype World = World(
    child: nat,
    session: Session,
    poisoned: bool,
    exited: bool,
    server: State,
    inbox: seq<Message>,
    pipe: seq<Item>,
    queue: seq<Item>,
    stale: seq<Item>,
    reading: bool,
    asking: Option<string>,
    bodies: map<int, string>,
    returned: Option<Returned>)

  const NOTHING: World := World(0, FRESH, true, true, State.New, [], [], [], [], false, None, map[], None)

  datatype Act =
    | Respawn(lingers: bool)                      // close and start; `lingers`: a reader outlives its join
    | Handles(text: string, isError: bool)        // the child handles its next message
    | Exits                                       // the child exits
    | Drains                                      // the child's reader moves a line to the queue
    | DrainsStale(k: nat)                         // an earlier child's reader does
    | TakeGreeting
    | TakeTools
    | Call(body: string, approved: bool)          // write a tools/call request
    | TakeAnswer
    | TimesOut

  predicate Waiting(w: World, verb: Verb) {
    w.reading && w.session.pending.Some? && w.session.pending.value.1 == verb
  }

  /** What the reader of a child that is being replaced would still read. */
  function Leftovers(w: World): seq<Item> {
    if w.exited then w.pipe else w.pipe + [Eof(w.child)]
  }

  function Spawned(w: World, lingers: bool): World {
    var (session, request) := AskToInitialize(FRESH);
    World(w.child + 1, session, false, false, State.New, [request.value], [], [],
          if lingers then w.stale + Leftovers(w) else w.stale, true, None, map[], w.returned)
  }

  /** `_read_one`: None when the queue's head is an end of file, which poisons the session. Nobody waits
      any more, unless more is to be read. */
  function Read(w: World): (World, Option<Message>)
    requires w.queue != []
  {
    var w' := w.(queue := w.queue[1..], reading := false);
    match w.queue[0]
    case Line(_, m) => (w', Some(m))
    case Eof(_) => (w'.(poisoned := true), None)
  }

  /** Each reader hands over its lines in order; several readers may interleave. */
  predicate NextOfItsReader(stale: seq<Item>, k: nat) {
    k < |stale| && forall j | 0 <= j < k :: stale[j].from != stale[k].from
  }

  ghost function Step(pinned: Pinned, w: World, act: Act): World {
    match act
    case Respawn(lingers) => if w.poisoned || w.exited then Spawned(w, lingers) else w
    case Handles(text, isError) =>
      if w.inbox == [] || w.exited then w
      else
        var (server, reply) := Serve(pinned, w.server, w.inbox[0], text, isError);
        w.(server := server, inbox := w.inbox[1..],
           pipe := if reply.Some? then w.pipe + [Line(w.child, reply.value)] else w.pipe)
    case Exits => if w.exited then w else w.(exited := true, inbox := [], pipe := w.pipe + [Eof(w.child)])
    case Drains => if w.pipe == [] then w else w.(pipe := w.pipe[1..], queue := w.queue + [w.pipe[0]])
    case DrainsStale(k) =>
      if NextOfItsReader(w.stale, k) then w.(stale := w.stale[..k] + w.stale[k + 1..], queue := w.queue + [w.stale[k]]) else w
    case TakeGreeting =>
      if w.queue == [] || !Waiting(w, Initialize) then w
      else
        var (w', m) := Read(w);
        if m.None? then w'
        else
          var (session, r) := ReceiveGreeting(pinned, w.session, m.value);
          if r.Refused? then w'.(session := session)
          else
            var (told, note) := Notify(session);
            var (asked, list) := AskForTools(told);
            if note.Refused? || list.Refused? then w'.(session := asked)
            else w'.(session := asked, reading := true, inbox := if w.exited then [] else w.inbox + [note.value, list.value])
    case TakeTools =>
      if w.queue == [] || !Waiting(w, ToolsList) then w
      else
        var (w', m) := Read(w);
        if m.None? then w' else w'.(session := ReceiveTools(pinned, w.session, m.value).0)
    case Call(body, approved) =>
      if w.poisoned || w.exited then w
      else
        var (session, r) := AskToCall(w.session, body, approved);
        if r.Refused? then w.(session := session)
        else w.(session := session, reading := true, asking := Some(body), bodies := w.bodies[r.value.id := body], inbox := w.inbox + [r.value])
    case TakeAnswer =>
      if w.queue == [] || !Waiting(w, ToolsCall) || w.asking.None? then w
      else
        var (w', m) := Read(w);
        if m.None? then w'
        else
          var (session, r) := ReceiveAnswer(w.session, m.value);
          if r.Refused? then w'.(session := session)
          else w'.(session := session, returned := Some(Returned(w.asking.value, r.value, w.queue[0].from == w.child)))
    case TimesOut => if w.queue == [] && w.reading then w.(poisoned := true, reading := false) else w
  }

  ghost function Run(pinned: Pinned, w: World, acts: seq<Act>): World
    decreases |acts|
  {
    if acts == [] then w else Run(pinned, Step(pinned, w, acts[0]), acts[1..])
  }

  // ---------------------------------------------------------------- what is in flight

  function Messages(items: seq<Item>): seq<Message> {
    if items == [] then []
    else (if items[0].Line? then [items[0].message] else []) + Messages(items[1..])
  }

  function Requests(inbox: seq<Message>): seq<Message> {
    if inbox == [] then []
    else (if inbox[0].Request? then [inbox[0]] else []) + Requests(inbox[1..])
  }

  /** Everything between the client's last write and its next read, oldest first. */
  function InFlight(w: World): seq<Message> {
    Messages(w.queue) + Messages(w.pipe) + Requests(w.inbox)
  }

  /** This message is the pending request, or the server's response to it. */
  predicate Answers(w: World, m: Message) {
    && w.session.pending.Some?
    && match m
       case Request(id, verb, body) =>
         id == w.session.pending.value.0 && verb == w.session.pending.value.1 && (verb == ToolsCall ==> w.asking == Some(body))
       case Response(id, result) =>
         id == w.session.pending.value.0 && (result.Answer? ==> w.asking == Some(result.asked))
       case Initialized => false
  }

  /** The client's half of the handshake, and what it implies. */
  predicate Ordered(s: Session) {
    && (s.verified ==> s.state == Ready)
    && (s.pending.Some? && s.pending.value.1 == ToolsCall ==> s.state == Ready && s.verified)
    && (s.pending.Some? && s.pending.value.1 == ToolsList ==> s.state == Ready)
    && (s.pending.Some? && s.pending.value.1 == Initialize ==> s.state == Initializing)
  }

  predicate NoLine(items: seq<Item>) {
    forall item | item in items :: item.Eof?
  }

  /** Nothing but the one outstanding exchange is under way, and nobody else can interfere. */
  ghost predicate Correlated(w: World) {
    && NoLine(w.stale)
    && Ordered(w.session)
    && |InFlight(w)| <= 1
    && (forall m | m in InFlight(w) :: Answers(w, m))
    && (forall m | m in w.inbox :: m.Request? || m.Initialized?)
    && (w.returned.Some? && w.returned.value.result.Answer? ==> w.returned.value.result.asked == w.returned.value.body)
  }

  lemma {:induction false} MessagesAppend(a: seq<Item>, b: seq<Item>)
    ensures Messages(a + b) == Messages(a) + Messages(b)
  {
    if a == [] {
      assert a + b == b;
    } else {
      assert (a + b)[0] == a[0] && (a + b)[1..] == a[1..] + b;
      MessagesAppend(a[1..], b);
    }
  }

  lemma {:induction false} RequestsAppend(a: seq<Message>, b: seq<Message>)
    ensures Requests(a + b) == Requests(a) + Requests(b)
  {
    if a == [] {
      assert a + b == b;
    } else {
      assert (a + b)[0] == a[0] && (a + b)[1..] == a[1..] + b;
      RequestsAppend(a[1..], b);
    }
  }

  lemma OneItem(item: Item)
    ensures Messages([item]) == if item.Line? then [item.message] else []
  {
    assert [item][1..] == [];
  }

  lemma InFlightMeansPending(w: World)
    requires Correlated(w)
    ensures InFlight(w) != [] ==> w.session.pending.Some?
  {
    if InFlight(w) != [] { assert InFlight(w)[0] in InFlight(w); }
  }

  /** The inbox head is the one message in flight. */
  lemma HeadIsAlone(w: World)
    requires Correlated(w) && w.inbox != [] && w.inbox[0].Request?
    ensures Messages(w.queue) == [] && Messages(w.pipe) == [] && Requests(w.inbox[1..]) == [] && Answers(w, w.inbox[0])
  {
    var before := Messages(w.queue) + Messages(w.pipe);
    assert InFlight(w) == before + ([w.inbox[0]] + Requests(w.inbox[1..]));
    assert |InFlight(w)| == |before| + 1 + |Requests(w.inbox[1..])|;
    assert InFlight(w)[|before|] == w.inbox[0];
    assert w.inbox[0] in InFlight(w);
  }

  lemma ServingAnswers(pinned: Pinned, w: World, m: Message, text: string, isError: bool)
    requires m.Request?
    ensures var reply := Serve(pinned, w.server, m, text, isError).1;
            reply.Some? ==> reply.value.Response? && (Answers(w, m) ==> Answers(w, reply.value))
  {
  }

  /** Only these parts of a world matter to an exchange. */
  lemma RebuiltIsCorrelated(w: World, w': World)
    requires Correlated(w) && NoLine(w'.stale) && w'.session == w.session && w'.asking == w.asking && w'.returned == w.returned
    requires |InFlight(w')| <= 1 && forall m | m in InFlight(w') :: Answers(w, m)
    requires forall m | m in w'.inbox :: m in w.inbox
    ensures Correlated(w')
  {
    hide InFlight;
    forall m | m in InFlight(w') ensures Answers(w', m) { assert Answers(w, m); }
  }

  lemma RequestIsServed(pinned: Pinned, w: World, text: string, isError: bool)
    requires Correlated(w) && w.inbox != [] && !w.exited && w.inbox[0].Request?
    ensures Correlated(Step(pinned, w, Handles(text, isError)))
  {
    var w' := Step(pinned, w, Handles(text, isError));
    var (server, reply) := Serve(pinned, w.server, w.inbox[0], text, isError);
    assert w'.queue == w.queue && w'.inbox == w.inbox[1..] && NoLine(w'.stale);
    assert w'.pipe == if reply.Some? then w.pipe + [Line(w.child, reply.value)] else w.pipe;
    HeadIsAlone(w);
    ServingAnswers(pinned, w, w.inbox[0], text, isError);
    if reply.Some? {
      MessagesAppend(w.pipe, [Line(w.child, reply.value)]);
      OneItem(Line(w.child, reply.value));
    }
    hide Messages, Requests, Correlated, Serve, Answers;
    assert InFlight(w') == if reply.Some? then [reply.value] else [];
    RebuiltIsCorrelated(w, w');
  }

  lemma NoteIsServed(pinned: Pinned, w: World, text: string, isError: bool)
    requires Correlated(w) && w.inbox != [] && !w.exited && !w.inbox[0].Request?
    ensures Correlated(Step(pinned, w, Handles(text, isError)))
  {
    var w' := Step(pinned, w, Handles(text, isError));
    assert w.inbox[0] in w.inbox;
    assert forall m | m in w'.inbox :: m in w.inbox;
    assert Requests(w.inbox) == [] + Requests(w.inbox[1..]) == Requests(w.inbox[1..]);
    hide Messages, Requests;
    assert InFlight(w') == InFlight(w);
  }

  /** Handling the head of the inbox keeps the exchange: the request is replaced by its response, or
      by nothing. */
  lemma HandlingKeepsCorrelated(pinned: Pinned, w: World, text: string, isError: bool)
    requires Correlated(w)
    ensures Correlated(Step(pinned, w, Handles(text, isError)))
  {
    hide Correlated;
    if w.inbox != [] && !w.exited {
      if w.inbox[0].Request? {
        RequestIsServed(pinned, w, text, isError);
      } else {
        NoteIsServed(pinned, w, text, isError);
      }
    }
  }

  lemma DrainingKeepsFlight(w: World)
    requires w.pipe != []
    ensures InFlight(w.(pipe := w.pipe[1..], queue := w.queue + [w.pipe[0]])) == InFlight(w)
  {
    MessagesAppend(w.queue, [w.pipe[0]]);
    OneItem(w.pipe[0]);
    assert w.pipe == [w.pipe[0]] + w.pipe[1..];
    MessagesAppend([w.pipe[0]], w.pipe[1..]);
  }

  lemma ExitingKeepsFlight(w: World)
    ensures InFlight(w) == InFlight(w.(exited := true, inbox := [], pipe := w.pipe + [Eof(w.child)])) + Requests(w.inbox)
  {
    MessagesAppend(w.pipe, [Eof(w.child)]);
    OneItem(Eof(w.child));
  }

  lemma MovingKeepsCorrelated(pinned: Pinned, w: World, act: Act)
    requires Correlated(w) && (act.Drains? || act.DrainsStale? || act.Exits? || act.TimesOut?)
    ensures Correlated(Step(pinned, w, act))
  {
    var w' := Step(pinned, w, act);
    assert NoLine(w.stale);
    assert |InFlight(w)| <= 1 && forall m | m in InFlight(w) :: Answers(w, m);
    if act.Drains? && w.pipe != [] {
      DrainingKeepsFlight(w);
    } else if act.DrainsStale? && NextOfItsReader(w.stale, act.k) {
      assert w.stale[act.k] in w.stale;
      MessagesAppend(w.queue, [w.stale[act.k]]);
      OneItem(w.stale[act.k]);
      assert InFlight(w') == InFlight(w);
    } else if act.Exits? && !w.exited {
      ExitingKeepsFlight(w);
      assert forall m | m in InFlight(w') :: m in InFlight(w);
    } else {
      SameFlight(w, w');
    }
    hide Correlated, InFlight, Answers, Messages, Requests;
    RebuiltIsCorrelated(w, w');
  }

  /** Once the one message in flight was read, nothing is. */
  lemma ReadingEmpties(w: World)
    requires Correlated(w) && w.queue != [] && w.queue[0].Line?
    ensures Answers(w, w.queue[0].message)
    ensures InFlight(Read(w).0) == [] && Requests(w.inbox) == []
  {
    var m := w.queue[0].message;
    assert Messages(w.queue) == [m] + Messages(w.queue[1..]);
    assert InFlight(w)[0] == m && m in InFlight(w);
    assert |InFlight(w)| == 1 + |Messages(w.queue[1..])| + |Messages(w.pipe)| + |Requests(w.inbox)|;
  }

  lemma ReadingAnEndKeepsFlight(w: World)
    requires w.queue != [] && w.queue[0].Eof?
    ensures InFlight(Read(w).0) == InFlight(w)
  {
    assert Messages(w.queue) == [] + Messages(w.queue[1..]) == Messages(w.queue[1..]);
  }

  lemma TakingTheEndKeepsCorrelated(pinned: Pinned, w: World, act: Act)
    requires Correlated(w) && (act.TakeGreeting? || act.TakeTools? || act.TakeAnswer?)
    requires w.queue != [] && w.queue[0].Eof?
    ensures Correlated(Step(pinned, w, act))
  {
    ReadingAnEndKeepsFlight(w);
    hide Messages, Requests;
    var w' := Step(pinned, w, act);
    assert InFlight(w') == InFlight(w);
  }

  lemma SettledKeepsCorrelated(w: World, w': World)
    requires Correlated(w) && InFlight(w') == [] && NoLine(w'.stale) && w'.inbox == w.inbox && Ordered(w'.session)
    requires w'.returned.Some? && w'.returned.value.result.Answer? ==> w'.returned.value.result.asked == w'.returned.value.body
    ensures Correlated(w')
  {
  }

  lemma ReceivingKeepsOrder(pinned: Pinned, s: Session, m: Message)
    requires Ordered(s)
    ensures s.pending.Some? && s.pending.value.1 == ToolsList ==> Ordered(ReceiveTools(pinned, s, m).0)
    ensures Ordered(ReceiveAnswer(s, m).0)
    ensures ReceiveAnswer(s, m).1.Accepted? ==> m.Response? && m.result == ReceiveAnswer(s, m).1.value
  {
    hide Verified;
  }

  lemma TakingToolsKeepsCorrelated(pinned: Pinned, w: World)
    requires Correlated(w) && w.queue != [] && w.queue[0].Line? && Waiting(w, ToolsList)
    ensures Correlated(Step(pinned, w, TakeTools))
  {
    ReadingEmpties(w);
    var m, read := w.queue[0].message, Read(w).0;
    ReceivingKeepsOrder(pinned, w.session, m);
    ReturnedIsOwn(w);
    var w' := read.(session := ReceiveTools(pinned, w.session, m).0);
    assert Step(pinned, w, TakeTools) == w';
    hide Messages, Requests, ReceiveTools, Step;
    SettledKeepsCorrelated(w, w');
  }

  lemma TakingAnswerKeepsCorrelated(pinned: Pinned, w: World)
    requires Correlated(w) && w.queue != [] && w.queue[0].Line? && Waiting(w, ToolsCall) && w.asking.Some?
    ensures Correlated(Step(pinned, w, TakeAnswer))
  {
    ReadingEmpties(w);
    var m, read := w.queue[0].message, Read(w).0;
    ReceivingKeepsOrder(pinned, w.session, m);
    ReturnedIsOwn(w);
    var (session, r) := ReceiveAnswer(w.session, m);
    var w' := if r.Refused? then read.(session := session)
              else read.(session := session, returned := Some(Returned(w.asking.value, r.value, w.queue[0].from == w.child)));
    assert Step(pinned, w, TakeAnswer) == w';
    hide Messages, Requests, ReceiveAnswer, Step;
    SettledKeepsCorrelated(w, w');
  }

  lemma TakingALineKeepsCorrelated(pinned: Pinned, w: World, act: Act)
    requires Correlated(w) && (act.TakeTools? || act.TakeAnswer?)
    requires w.queue != [] && w.queue[0].Line?
    ensures Correlated(Step(pinned, w, act))
  {
    hide Correlated, ReceiveTools, ReceiveAnswer;
    if act.TakeTools? {
      if Waiting(w, ToolsList) { TakingToolsKeepsCorrelated(pinned, w); }
    } else {
      if Waiting(w, ToolsCall) && w.asking.Some? { TakingAnswerKeepsCorrelated(pinned, w); }
    }
  }

  lemma SameFlight(a: World, b: World)
    requires a.queue == b.queue && a.pipe == b.pipe && a.inbox == b.inbox
    ensures InFlight(a) == InFlight(b)
  {
  }

  lemma ReturnedIsOwn(w: World)
    requires Correlated(w)
    ensures w.returned.Some? && w.returned.value.result.Answer? ==> w.returned.value.result.asked == w.returned.value.body
  {
  }

  lemma TakingKeepsCorrelated(pinned: Pinned, w: World, act: Act)
    requires Correlated(w) && (act.TakeGreeting? || act.TakeTools? || act.TakeAnswer?)
    ensures Correlated(Step(pinned, w, act))
  {
    hide Correlated, Answers, Messages;
    if w.queue != [] {
      if w.queue[0].Eof? {
        TakingTheEndKeepsCorrelated(pinned, w, act);
      } else if !act.TakeGreeting? {
        TakingALineKeepsCorrelated(pinned, w, act);
      } else if Waiting(w, Initialize) {
        ReadingEmpties(w);
        GreetingAsksForTools(pinned, w, Read(w).0, w.queue[0].message);
      }
    }
  }

  lemma GreetingAsksForTools(pinned: Pinned, w: World, w': World, m: Message)
    requires Correlated(w) && w.queue != [] && w.queue[0].Line? && m == w.queue[0].message && w' == Read(w).0
    requires Waiting(w, Initialize) && InFlight(w') == [] && Requests(w.inbox) == []
    ensures Correlated(Step(pinned, w, TakeGreeting))
  {
    hide Messages, Requests;
    GreetedSession(pinned, w.session, m);
    ReturnedIsOwn(w);
    NothingInFlight(w');
    var after := Step(pinned, w, TakeGreeting);
    var (session, r) := ReceiveGreeting(pinned, w.session, m);
    if r.Accepted? && !w.exited {
      var list := Request(w.session.lastId + 1, ToolsList, "");
      assert after == w'.(session := AskForTools(Notify(session).0).0, reading := true, inbox := w.inbox + [Initialized, list]);
      ListingIsAlone(w.inbox, list);
      hide Step, ReceiveGreeting, AskForTools, Notify;
      assert InFlight(after) == [list];
    } else {
      assert after.queue == w'.queue && after.pipe == w'.pipe && (after.inbox == w.inbox || after.inbox == []);
      assert Requests([]) == [] by { NoRequests(); }
      hide Step, ReceiveGreeting, AskForTools, Notify;
      assert InFlight(after) == [];
    }
  }

  lemma NoRequests()
    ensures Requests([]) == []
  {
  }

  lemma NothingInFlight(w: World)
    requires InFlight(w) == []
    ensures Messages(w.queue) == [] && Messages(w.pipe) == [] && Requests(w.inbox) == []
  {
  }

  lemma ListingIsAlone(inbox: seq<Message>, list: Message)
    requires Requests(inbox) == [] && list.Request?
    ensures Requests(inbox + [Initialized, list]) == [list]
  {
    RequestsAppend(inbox, [Initialized, list]);
    assert [Initialized, list][1..] == [list] && [list][1..] == [];
    assert Requests([list]) == [list];
  }

  lemma GreetedSession(pinned: Pinned, s: Session, m: Message)
    requires Ordered(s) && s.pending.Some? && s.pending.value.1 == Initialize
    ensures var (session, r) := ReceiveGreeting(pinned, s, m);
            && Ordered(session)
            && (r.Accepted? ==>
                  && Notify(session).1 == Accepted(Initialized)
                  && AskForTools(Notify(session).0) ==
                       (Session(Ready, s.lastId + 1, Some((s.lastId + 1, ToolsList)), s.verified),
                        Accepted(Request(s.lastId + 1, ToolsList, ""))))
  {
  }

  lemma CallingKeepsCorrelated(pinned: Pinned, w: World, body: string, approved: bool)
    requires Correlated(w)
    ensures Correlated(Step(pinned, w, Call(body, approved)))
  {
    var w' := Step(pinned, w, Call(body, approved));
    var (session, r) := AskToCall(w.session, body, approved);
    if !w.poisoned && !w.exited && r.Accepted? {
      assert w.session.pending.None?;
      InFlightMeansPending(w);
      RequestsAppend(w.inbox, [r.value]);
      assert [r.value][1..] == [] && Requests([r.value]) == [r.value];
      assert Messages(w.queue) == [] && Messages(w.pipe) == [] && Requests(w.inbox) == [];
      assert InFlight(w') == [r.value];
    } else {
      assert InFlight(w') == InFlight(w);
    }
  }

  lemma SpawningKeepsCorrelated(w: World, lingers: bool)
    requires Correlated(w) && (lingers ==> NoLine(w.pipe))
    ensures Correlated(Spawned(w, lingers))
  {
    var w' := Spawned(w, lingers);
    var request := w'.inbox[0];
    assert w'.inbox == [request] && [request][1..] == [];
    assert Requests([request]) == [request];
    assert InFlight(w') == [request];
  }

  /** The readers that outlive their child, if any, have no line left to hand over. */
  ghost predicate Harmless(pinned: Pinned, w: World, acts: seq<Act>)
    decreases |acts|
  {
    acts != [] ==>
      && (acts[0] == Respawn(true) && (w.poisoned || w.exited) ==> NoLine(w.pipe))
      && Harmless(pinned, Step(pinned, w, acts[0]), acts[1..])
  }

  ghost predicate NoneLingers(acts: seq<Act>) {
    forall i | 0 <= i < |acts| :: acts[i] != Respawn(true)
  }

  lemma {:induction false} NoneLingeringIsHarmless(pinned: Pinned, w: World, acts: seq<Act>)
    requires NoneLingers(acts)
    ensures Harmless(pinned, w, acts)
    decreases |acts|
  {
    hide Step;
    if acts != [] { NoneLingeringIsHarmless(pinned, Step(pinned, w, acts[0]), acts[1..]); }
  }

  lemma StepKeepsCorrelated(pinned: Pinned, w: World, act: Act)
    requires Correlated(w) && (act == Respawn(true) && (w.poisoned || w.exited) ==> NoLine(w.pipe))
    ensures Correlated(Step(pinned, w, act))
  {
    match act {
      case Respawn(lingers) =>
        if w.poisoned || w.exited { SpawningKeepsCorrelated(w, lingers); }
      case Handles(text, isError) => HandlingKeepsCorrelated(pinned, w, text, isError);
      case Call(body, approved) => CallingKeepsCorrelated(pinned, w, body, approved);
      case TakeGreeting => TakingKeepsCorrelated(pinned, w, act);
      case TakeTools => TakingKeepsCorrelated(pinned, w, act);
      case TakeAnswer => TakingKeepsCorrelated(pinned, w, act);
      case _ => MovingKeepsCorrelated(pinned, w, act);
    }
  }

  lemma {:induction false} RunKeepsCorrelated(pinned: Pinned, w: World, acts: seq<Act>)
    requires Correlated(w) && Harmless(pinned, w, acts)
    ensures Correlated(Run(pinned, w, acts))
    decreases |acts|
  {
    hide Correlated, Step;
    if acts != [] {
      StepKeepsCorrelated(pinned, w, acts[0]);
      RunKeepsCorrelated(pinned, Step(pinned, w, acts[0]), acts[1..]);
    }
  }

  /** As long as no reader outlives its child with a line still to hand over, a result handed to the
      caller is the answer to that caller's own request, at most one exchange is under way, a call goes
      out only over a session that finished the handshake and verified the pinned tools, and the line a
      waiting call reads carries its own id. */
  lemma ResultsAreOwnAnswers(pinned: Pinned, acts: seq<Act>)
    requires Harmless(pinned, NOTHING, acts)
    ensures var w := Run(pinned, NOTHING, acts);
            && (w.returned.Some? && w.returned.value.result.Answer? ==> w.returned.value.result.asked == w.returned.value.body)
            && |InFlight(w)| <= 1
            && (w.session.pending.Some? && w.session.pending.value.1 == ToolsCall ==> w.session.state == Ready && w.session.verified)
            && (w.queue != [] && w.queue[0].Line? && w.queue[0].message.Response? ==>
                  w.session.pending.Some? && w.queue[0].message.id == w.session.pending.value.0)
  {
    RunKeepsCorrelated(pinned, NOTHING, acts);
    var w := Run(pinned, NOTHING, acts);
    hide Run;
    if w.queue != [] && w.queue[0].Line? { ReadingEmpties(w); }
  }

  // ---------------------------------------------------------------- readers that outlive their child

  predicate Honest(w: World, m: Message) {
    match m
    case Request(id, verb, body) => id <= w.session.lastId && (verb == ToolsCall ==> id in w.bodies && w.bodies[id] == body)
    case Response(id, result) => result.Answer? ==> id in w.bodies && w.bodies[id] == result.asked
    case Initialized => true
  }

  predicate HonestItem(w: World, item: Item) {
    item.Line? && item.from == w.child ==> Honest(w, item.message)
  }

  /** What the current child wrote answers what it was asked, whatever else is in the queue. */
  ghost predicate Truthful(w: World) {
    && (forall m | m in w.inbox :: Honest(w, m))
    && (forall item | item in w.pipe :: HonestItem(w, item) && item.from == w.child)
    && (forall item | item in w.queue :: HonestItem(w, item))
    && (forall item | item in w.stale :: item.from != w.child && item.from < w.child)
    && (forall id | id in w.bodies :: id <= w.session.lastId)
    && (w.session.pending.Some? && w.session.pending.value.1 == ToolsCall ==>
          w.session.pending.value.0 in w.bodies && w.asking == Some(w.bodies[w.session.pending.value.0]))
    && (w.returned.Some? && w.returned.value.own && w.returned.value.result.Answer? ==>
          w.returned.value.result.asked == w.returned.value.body)
  }

  lemma ServingIsHonest(pinned: Pinned, w: World, m: Message, text: string, isError: bool)
    requires Honest(w, m)
    ensures var reply := Serve(pinned, w.server, m, text, isError).1; reply.Some? ==> Honest(w, reply.value)
  {
  }

  lemma PipesStayTruthful(pinned: Pinned, w: World, act: Act)
    requires Truthful(w) && (act.Handles? || act.Exits? || act.Drains? || act.DrainsStale? || act.TimesOut?)
    ensures Truthful(Step(pinned, w, act))
  {
    var w' := Step(pinned, w, act);
    if act.Handles? && w.inbox != [] {
      ServingIsHonest(pinned, w, w.inbox[0], act.text, act.isError);
    }
    assert forall m :: Honest(w, m) ==> Honest(w', m);
    hide Honest, Serve;
  }

  /** Reading takes an item away and may poison. */
  lemma ReadingStaysTruthful(w: World)
    requires Truthful(w) && w.queue != []
    ensures Truthful(Read(w).0)
  {
    var w' := Read(w).0;
    forall m ensures Honest(w, m) ==> Honest(w', m) {}
    hide Honest;
    assert w'.queue == w.queue[1..] && w'.child == w.child;
    forall item | item in w'.queue ensures HonestItem(w', item) {
      assert item in w.queue;
      assert HonestItem(w, item);
    }
    forall item | item in w'.pipe ensures HonestItem(w', item) && item.from == w'.child {
      assert HonestItem(w, item);
    }
  }

  /** A session that only forgets or settles keeps every promise. */
  lemma SettlingStaysTruthful(w: World, session: Session)
    requires Truthful(w) && session.lastId == w.session.lastId
    requires session.pending.Some? && session.pending.value.1 == ToolsCall ==> session.pending == w.session.pending
    ensures Truthful(w.(session := session))
  {
    assert forall m :: Honest(w, m) ==> Honest(w.(session := session), m);
    hide Honest;
  }

  lemma AskingStaysTruthful(w: World, session: Session, messages: seq<Message>)
    requires Truthful(w) && session.lastId >= w.session.lastId
    requires session.pending.Some? ==> session.pending.value.1 != ToolsCall
    requires forall m | m in messages ::
               m.Initialized? || (m.Request? && m.verb != ToolsCall && m.id <= session.lastId)
    ensures Truthful(w.(session := session, inbox := w.inbox + messages))
    ensures Truthful(w.(session := session, inbox := []))
  {
    var w' := w.(session := session, inbox := w.inbox + messages);
    forall m ensures Honest(w, m) ==> Honest(w', m) && Honest(w.(session := session, inbox := []), m) {}
    forall m | m in messages ensures Honest(w', m) {}
    hide Honest;
  }

  lemma GreetingStaysTruthful(pinned: Pinned, w: World)
    requires Truthful(w)
    ensures Truthful(Step(pinned, w, TakeGreeting))
  {
    if w.queue != [] && Waiting(w, Initialize) {
      ReadingStaysTruthful(w);
      var (read, m) := Read(w);
      if m.Some? {
        var (session, r) := ReceiveGreeting(pinned, w.session, m.value);
        SettlingStaysTruthful(read, session);
        if r.Accepted? {
          var (told, note) := Notify(session);
          var (asked, list) := AskForTools(told);
          hide Truthful;
          assert note.Accepted? && list.Accepted?;
          AskingStaysTruthful(read, asked, [note.value, list.value]);
          assert read.inbox == w.inbox;
        }
      }
    }
  }

  lemma CallingStaysTruthful(pinned: Pinned, w: World, body: string, approved: bool)
    requires Truthful(w)
    ensures Truthful(Step(pinned, w, Call(body, approved)))
  {
    var (session, r) := AskToCall(w.session, body, approved);
    if !w.poisoned && !w.exited && r.Accepted? {
      var w' := Step(pinned, w, Call(body, approved));
      assert r.value == Request(w.session.lastId + 1, ToolsCall, body) && session.lastId == w.session.lastId + 1;
      assert w.session.lastId + 1 !in w.bodies;
      forall m ensures Honest(w, m) ==> Honest(w', m) {
        assert forall id | id in w.bodies :: id in w'.bodies && w'.bodies[id] == w.bodies[id];
      }
      assert Honest(w', r.value);
      hide Honest;
    }
  }

  lemma AnswerStaysTruthful(pinned: Pinned, w: World)
    requires Truthful(w)
    ensures Truthful(Step(pinned, w, TakeAnswer))
  {
    if w.queue != [] && Waiting(w, ToolsCall) && w.asking.Some? {
      ReadingStaysTruthful(w);
      var (read, m) := Read(w);
      if m.Some? {
        var (session, r) := ReceiveAnswer(w.session, m.value);
        SettlingStaysTruthful(read, session);
        assert HonestItem(w, w.queue[0]);
        if r.Accepted? {
          assert m.value.id == w.session.pending.value.0;
          var back := Returned(w.asking.value, r.value, w.queue[0].from == w.child);
          assert back.own && r.value.Answer? ==> r.value.asked == w.asking.value;
          ReturningStaysTruthful(read.(session := session), back);
        }
      }
    }
  }

  lemma ReturningStaysTruthful(w: World, back: Returned)
    requires Truthful(w) && (back.own && back.result.Answer? ==> back.result.asked == back.body)
    ensures Truthful(w.(returned := Some(back)))
  {
    assert forall m :: Honest(w, m) ==> Honest(w.(returned := Some(back)), m);
    hide Honest;
  }

  lemma SpawningStaysTruthful(w: World, lingers: bool)
    requires Truthful(w)
    ensures Truthful(Spawned(w, lingers))
  {
    assert Honest(Spawned(w, lingers), Spawned(w, lingers).inbox[0]);
    hide Honest;
  }

  lemma StepStaysTruthful(pinned: Pinned, w: World, act: Act)
    requires Truthful(w)
    ensures Truthful(Step(pinned, w, act))
  {
    match act {
      case Respawn(lingers) =>
        hide Truthful;
        SpawningStaysTruthful(w, lingers);
      case Call(body, approved) =>
        hide Truthful;
        CallingStaysTruthful(pinned, w, body, approved);
      case TakeGreeting =>
        hide Truthful;
        GreetingStaysTruthful(pinned, w);
      case TakeAnswer =>
        hide Truthful;
        AnswerStaysTruthful(pinned, w);
      case TakeTools =>
        hide Truthful;
        if w.queue != [] && Waiting(w, ToolsList) {
          ReadingStaysTruthful(w);
          var (read, m) := Read(w);
          if m.Some? { SettlingStaysTruthful(read, ReceiveTools(pinned, w.session, m.value).0); }
        }
      case _ =>
        hide Truthful;
        PipesStayTruthful(pinned, w, act);
    }
  }

  lemma {:induction false} RunStaysTruthful(pinned: Pinned, w: World, acts: seq<Act>)
    requires Truthful(w)
    ensures Truthful(Run(pinned, w, acts))
    decreases |acts|
  {
    hide Truthful, Step;
    if acts != [] {
      StepStaysTruthful(pinned, w, acts[0]);
      RunStaysTruthful(pinned, Step(pinned, w, acts[0]), acts[1..]);
    }
  }

  /** Even when reader threads outlive their child: a returned answer whose line the current child
      wrote is the answer to the call it is returned for. */
  lemma OwnLinesAreOwnAnswers(pinned: Pinned, acts: seq<Act>)
    ensures var w := Run(pinned, NOTHING, acts);
            w.returned.Some? && w.returned.value.own && w.returned.value.result.Answer? ==>
              w.returned.value.result.asked == w.returned.value.body
  {
    RunStaysTruthful(pinned, NOTHING, acts);
  }

  // ---------------------------------------------------------------- what a lingering reader can do

  predicate IsAnswer(item: Item) {
    item.Line? && item.message.Response? && item.message.result.Answer? && !item.message.result.isError
  }

  predicate HoldsAnswer(items: seq<Item>) {
    exists i :: 0 <= i < |items| && IsAnswer(items[i])
  }

  /** The last result handed to a caller was written by an earlier child than the one it was asked of. */
  predicate Mixed(w: World) {
    w.returned.Some? && !w.returned.value.own
  }

  /** Lines that earlier children wrote come from this stock. */
  ghost predicate Stocked(w: World, stock: seq<Item>) {
    && (forall item | item in w.pipe :: item.from == w.child)
    && (forall item | item in w.queue :: item.from != w.child && item.Line? ==> item in stock)
    && (forall item | item in w.stale :: item.from < w.child && (item.Line? ==> item in stock))
    && (Mixed(w) ==> HoldsAnswer(stock))
  }

  lemma TakingKeepsStocked(pinned: Pinned, w: World, stock: seq<Item>)
    requires Stocked(w, stock)
    ensures Stocked(Step(pinned, w, TakeAnswer), stock)
  {
    if w.queue != [] && Waiting(w, ToolsCall) && w.asking.Some? && w.queue[0].Line? {
      var item := w.queue[0];
      if ReceiveAnswer(w.session, item.message).1.Accepted? && item.from != w.child {
        assert item in stock && IsAnswer(item);
        var i :| 0 <= i < |stock| && stock[i] == item;
        assert IsAnswer(stock[i]);
      }
    }
  }

  lemma StepKeepsStocked(pinned: Pinned, w: World, act: Act, stock: seq<Item>)
    requires Stocked(w, stock) && (act == Respawn(true) && (w.poisoned || w.exited) ==> NoLine(w.pipe))
    ensures Stocked(Step(pinned, w, act), stock)
  {
    match act {
      case TakeAnswer =>
        hide Stocked;
        TakingKeepsStocked(pinned, w, stock);
      case Respawn(lingers) => hide HoldsAnswer;
      case TakeGreeting => hide HoldsAnswer, ReceiveGreeting, Notify, AskForTools;
      case TakeTools => hide HoldsAnswer, ReceiveTools;
      case Call(_, _) => hide HoldsAnswer, AskToCall;
      case _ =>
        hide Stocked;
        MovingKeepsStocked(pinned, w, act, stock);
    }
  }

  lemma MovingKeepsStocked(pinned: Pinned, w: World, act: Act, stock: seq<Item>)
    requires Stocked(w, stock) && (act.Handles? || act.Exits? || act.Drains? || act.DrainsStale? || act.TimesOut?)
    ensures Stocked(Step(pinned, w, act), stock)
  {
    hide HoldsAnswer, Serve;
  }

  lemma {:induction false} RunKeepsStocked(pinned: Pinned, w: World, acts: seq<Act>, stock: seq<Item>)
    requires Stocked(w, stock) && Harmless(pinned, w, acts)
    ensures Stocked(Run(pinned, w, acts), stock)
    decreases |acts|
  {
    hide Stocked, Step;
    if acts != [] {
      StepKeepsStocked(pinned, w, acts[0], stock);
      RunKeepsStocked(pinned, Step(pinned, w, acts[0]), acts[1..], stock);
    }
  }

  lemma SpawningStocks(w: World)
    requires Stocked(w, []) && NoLine(w.stale)
    ensures Stocked(Spawned(w, true), w.pipe)
  {
  }

  // ---------------------------------------------------------------- what any child writes

  predicate HasCalls(s: Session) {
    s.verified || (s.pending.Some? && s.pending.value.1 == ToolsList)
  }

  ghost predicate Plausible(pinned: Pinned, item: Item) {
    item.Line? ==>
      && item.message.Response?
      && (item.message.result.Answer? ==> item.message.id >= 3 && Distinct(pinned.tools))
      && (item.message.result.Discovery? ==> item.message.result.tools == pinned.tools)
  }

  /** Children answer requests, calls come after two other requests and over verified tools, and a
      pipe ends at most once. */
  ghost predicate Sound(pinned: Pinned, w: World) {
    && (forall item | item in w.queue :: Plausible(pinned, item))
    && (forall item | item in w.pipe :: Plausible(pinned, item))
    && (forall item | item in w.stale :: Plausible(pinned, item))
    && (forall m | m in w.inbox :: m.Request? && m.verb == ToolsCall ==> m.id >= 3 && Distinct(pinned.tools))
    && (w.session.state != New || w.session.pending.Some? ==> w.session.lastId >= 1)
    && (HasCalls(w.session) ==> w.session.lastId >= 2)
    && (w.session.verified ==> Distinct(pinned.tools))
    && (forall i | 0 <= i < |w.pipe| :: w.pipe[i].Eof? ==> w.exited && i == |w.pipe| - 1)
  }

  lemma GreetingStaysSound(pinned: Pinned, w: World)
    requires Sound(pinned, w)
    ensures Sound(pinned, Step(pinned, w, TakeGreeting))
  {
    hide Plausible, Distinct;
  }

  lemma ToolsStaySound(pinned: Pinned, w: World)
    requires Sound(pinned, w)
    ensures Sound(pinned, Step(pinned, w, TakeTools))
  {
    if w.queue != [] { assert Plausible(pinned, w.queue[0]); }
    hide Distinct;
  }

  lemma AnswerStaysSound(pinned: Pinned, w: World)
    requires Sound(pinned, w)
    ensures Sound(pinned, Step(pinned, w, TakeAnswer))
  {
    hide Plausible, Distinct;
  }

  lemma CallStaysSound(pinned: Pinned, w: World, body: string, approved: bool)
    requires Sound(pinned, w)
    ensures Sound(pinned, Step(pinned, w, Call(body, approved)))
  {
    hide Plausible, Distinct;
  }

  lemma HandlingStaysSound(pinned: Pinned, w: World, text: string, isError: bool)
    requires Sound(pinned, w)
    ensures Sound(pinned, Step(pinned, w, Handles(text, isError)))
  {
    if w.inbox != [] { assert w.inbox[0] in w.inbox; }
    hide Distinct;
  }

  lemma StepStaysSound(pinned: Pinned, w: World, act: Act)
    requires Sound(pinned, w)
    ensures Sound(pinned, Step(pinned, w, act))
  {
    match act {
      case Handles(text, isError) =>
        hide Sound;
        HandlingStaysSound(pinned, w, text, isError);
      case TakeGreeting =>
        hide Sound;
        GreetingStaysSound(pinned, w);
      case TakeTools =>
        hide Sound;
        ToolsStaySound(pinned, w);
      case TakeAnswer =>
        hide Sound;
        AnswerStaysSound(pinned, w);
      case Call(body, approved) =>
        hide Sound;
        CallStaysSound(pinned, w, body, approved);
      case _ => hide Distinct;
    }
  }

  lemma {:induction false} RunStaysSound(pinned: Pinned, w: World, acts: seq<Act>)
    requires Sound(pinned, w)
    ensures Sound(pinned, Run(pinned, w, acts))
    decreases |acts|
  {
    hide Sound, Step;
    if acts != [] {
      StepStaysSound(pinned, w, acts[0]);
      RunStaysSound(pinned, Step(pinned, w, acts[0]), acts[1..]);
    }
  }

  lemma {:induction false} TwoLinesAreTwoMessages(items: seq<Item>, i: nat)
    requires 0 < i < |items| && items[0].Line? && items[i].Line?
    ensures |Messages(items)| >= 2
  {
    assert items == items[..i] + items[i..];
    MessagesAppend(items[..i], items[i..]);
  }

  /** A pipe with a line in it begins with it, and has no other. */
  lemma TheOneLineIsFirst(pinned: Pinned, w: World, i: nat)
    requires Correlated(w) && Sound(pinned, w) && i < |w.pipe| && w.pipe[i].Line?
    ensures i == 0
  {
    if i > 0 { TwoLinesAreTwoMessages(w.pipe, i); }
  }

  // ---------------------------------------------------------------- a child nobody disturbs

  function Handshake(): seq<Act> {
    [Handles("", false), Drains, TakeGreeting, Handles("", false), Handles("", false), Drains, TakeTools]
  }

  function OneCall(body: string, text: string): seq<Act> {
    [Call(body, true), Handles(text, false), Drains, TakeAnswer]
  }

  function Calls(n: nat): seq<Act> {
    if n == 0 then [] else OneCall("", "") + Calls(n - 1)
  }

  lemma {:induction false} RunningOn(pinned: Pinned, w: World, a: seq<Act>, b: seq<Act>)
    ensures Run(pinned, w, a + b) == Run(pinned, Run(pinned, w, a), b)
    decreases |a|
  {
    hide Step;
    if a == [] {
      assert a + b == b;
    } else {
      assert (a + b)[0] == a[0] && (a + b)[1..] == a[1..] + b;
      RunningOn(pinned, Step(pinned, w, a[0]), a[1..], b);
    }
  }

  predicate JustSpawned(w: World) {
    && w.session == Session(Initializing, 1, Some((1, Initialize)), false) && !w.poisoned && !w.exited && w.reading
    && w.server == New && w.inbox == [Request(1, Initialize, PROTOCOL)] && w.pipe == [] && w.queue == []
  }

  /** Between two calls, `n` requests into a child's life. */
  predicate Idle(w: World, n: nat) {
    && w.session == Session(Ready, n, None, true) && !w.poisoned && !w.exited && !w.reading
    && w.server == Ready && w.inbox == [] && w.pipe == [] && w.queue == []
  }

  predicate SameReaders(w: World, w': World) {
    w'.stale == w.stale && w'.child == w.child
  }

  function Listed(w: World): World {
    w.(server := Greeted, session := Session(Ready, 2, Some((2, ToolsList)), false), inbox := [Initialized, Request(2, ToolsList, "")])
  }

  lemma GreetingSucceeds(pinned: Pinned, w: World) returns (w1: World, w2: World)
    requires JustSpawned(w)
    ensures w1 == Step(pinned, w, Handles("", false)) && w2 == Step(pinned, w1, Drains)
    ensures Step(pinned, w2, TakeGreeting) == Listed(w)
  {
    var line := Line(w.child, Response(1, Greeting(PROTOCOL, pinned.server)));
    w1 := w.(server := Greeted, inbox := [], pipe := [line]);
    w2 := w.(server := Greeted, inbox := [], queue := [line]);
    assert [line][1..] == [] && [] + [line] == [line];
  }

  lemma PinnedIsVerified(tools: seq<Tool>)
    requires Distinct(tools)
    ensures Verified(tools, tools)
  {
    forall d, p | d in tools && p in tools && d.name == p.name ensures d.schema == p.schema {
      var i :| 0 <= i < |tools| && tools[i] == d;
      var j :| 0 <= j < |tools| && tools[j] == p;
      assert i == j;
    }
  }

  lemma ListingSucceeds(pinned: Pinned, w: World) returns (w4: World, w5: World, w6: World, w7: World)
    requires JustSpawned(w) && Distinct(pinned.tools)
    ensures w4 == Step(pinned, Listed(w), Handles("", false)) && w5 == Step(pinned, w4, Handles("", false))
    ensures w6 == Step(pinned, w5, Drains) && w7 == Step(pinned, w6, TakeTools)
    ensures Idle(w7, 2) && SameReaders(w, w7)
  {
    var w3 := Listed(w);
    var line := Line(w.child, Response(2, Discovery(pinned.tools, false)));
    w4 := w3.(server := Ready, inbox := [Request(2, ToolsList, "")]);
    w5 := w3.(server := Ready, inbox := [], pipe := [line]);
    w6 := w3.(server := Ready, inbox := [], queue := [line]);
    w7 := Step(pinned, w6, TakeTools);
    assert [line][1..] == [] && [] + [line] == [line];
    PinnedIsVerified(pinned.tools);
  }

  lemma HandshakeSucceeds(pinned: Pinned, w: World)
    requires JustSpawned(w) && Distinct(pinned.tools)
    ensures var w' := Run(pinned, w, Handshake()); Idle(w', 2) && SameReaders(w, w')
  {
    var w1, w2 := GreetingSucceeds(pinned, w);
    var w4, w5, w6, w7 := ListingSucceeds(pinned, w);
    hide Step, JustSpawned, Listed, Idle;
    var acts := Handshake();
    RunningOn(pinned, w, acts[..3], acts[3..]);
    assert acts[..3] == [acts[0], acts[1], acts[2]] && acts[3..] == [acts[3], acts[4], acts[5], acts[6]];
    assert acts == acts[..3] + acts[3..];
    Three(pinned, w, acts[0], acts[1], acts[2], w1, w2, Listed(w));
    Four(pinned, Listed(w), acts[3], acts[4], acts[5], acts[6], w4, w5, w6, w7);
  }

  lemma Three(p: Pinned, w: World, a: Act, b: Act, c: Act, w1: World, w2: World, w3: World)
    requires w1 == Step(p, w, a) && w2 == Step(p, w1, b) && w3 == Step(p, w2, c)
    ensures Run(p, w, [a, b, c]) == w3
  {
    hide Step;
    assert [a, b, c][1..] == [b, c] && [b, c][1..] == [c] && [c][1..] == [];
    assert Run(p, w2, [c]) == Run(p, w3, []);
    assert Run(p, w1, [b, c]) == Run(p, w2, [c]);
  }

  lemma Four(p: Pinned, w: World, a: Act, b: Act, c: Act, d: Act, w1: World, w2: World, w3: World, w4: World)
    requires w1 == Step(p, w, a) && w2 == Step(p, w1, b) && w3 == Step(p, w2, c) && w4 == Step(p, w3, d)
    ensures Run(p, w, [a, b, c, d]) == w4
  {
    hide Step;
    assert [a, b, c, d][1..] == [b, c, d];
    Three(p, w1, b, c, d, w2, w3, w4);
  }

  /** The call is written, handled and drained. */
  lemma CallIsDrained(pinned: Pinned, w: World, n: nat, body: string, text: string) returns (w1: World, w2: World, w3: World)
    requires Idle(w, n)
    ensures w1 == Step(pinned, w, Call(body, true)) && w2 == Step(pinned, w1, Handles(text, false)) && w3 == Step(pinned, w2, Drains)
    ensures w3 == w.(session := Session(Ready, n + 1, Some((n + 1, ToolsCall)), true), reading := true, asking := Some(body),
                     bodies := w.bodies[n + 1 := body], queue := [Line(w.child, Response(n + 1, Answer(body, text, false)))])
  {
    var line := Line(w.child, Response(n + 1, Answer(body, text, false)));
    w1 := Step(pinned, w, Call(body, true));
    assert w1.inbox == [Request(n + 1, ToolsCall, body)];
    w2 := Step(pinned, w1, Handles(text, false));
    assert w2.pipe == [line] && w2.inbox == [];
    w3 := Step(pinned, w2, Drains);
  }

  lemma AnswerIsTaken(pinned: Pinned, w: World, n: nat, body: string, text: string)
    requires w.session == Session(Ready, n + 1, Some((n + 1, ToolsCall)), true) && w.reading && w.asking == Some(body)
    requires w.queue == [Line(w.child, Response(n + 1, Answer(body, text, false)))]
    requires !w.poisoned && !w.exited && w.server == Ready && w.inbox == [] && w.pipe == []
    ensures var w' := Step(pinned, w, TakeAnswer);
            Idle(w', n + 1) && SameReaders(w, w') && w'.returned == Some(Returned(body, Answer(body, text, false), true))
  {
  }

  lemma OneCallSucceeds(pinned: Pinned, w: World, n: nat, body: string, text: string)
    requires Idle(w, n)
    ensures var w' := Run(pinned, w, OneCall(body, text));
            Idle(w', n + 1) && SameReaders(w, w') && w'.returned == Some(Returned(body, Answer(body, text, false), true))
  {
    hide Step;
    var w1, w2, w3 := CallIsDrained(pinned, w, n, body, text);
    AnswerIsTaken(pinned, w3, n, body, text);
    Four(pinned, w, Call(body, true), Handles(text, false), Drains, TakeAnswer, w1, w2, w3, Step(pinned, w3, TakeAnswer));
  }

  lemma {:induction false} CallsSucceed(pinned: Pinned, w: World, n: nat, k: nat)
    requires Idle(w, n)
    ensures var w' := Run(pinned, w, Calls(k)); Idle(w', n + k) && SameReaders(w, w')
    decreases k
  {
    hide Step, Idle;
    if k > 0 {
      OneCallSucceeds(pinned, w, n, "", "");
      CallsSucceed(pinned, Run(pinned, w, OneCall("", "")), n + 1, k - 1);
      RunningOn(pinned, w, OneCall("", ""), Calls(k - 1));
    }
  }

  /** A child that died or was poisoned is replaced, and after any number of calls the next one still
      returns what the new child made of it. */
  lemma ReplacedChildrenAnswer(pinned: Pinned, w: World, lingers: bool, k: nat, body: string, text: string)
    requires (w.poisoned || w.exited) && Distinct(pinned.tools)
    ensures Run(pinned, w, [Respawn(lingers)] + Handshake() + Calls(k) + OneCall(body, text)).returned
         == Some(Returned(body, Answer(body, text, false), true))
  {
    var next := Step(pinned, w, Respawn(lingers));
    assert JustSpawned(next);
    assert Run(pinned, w, [Respawn(lingers)]) == Run(pinned, next, []) == next;
    hide Step, JustSpawned, Idle, OneCall, Calls;
    HandshakeSucceeds(pinned, next);
    var shaken := Run(pinned, next, Handshake());
    CallsSucceed(pinned, shaken, 2, k);
    OneCallSucceeds(pinned, Run(pinned, shaken, Calls(k)), k + 2, body, text);
    RunningOn(pinned, w, [Respawn(lingers)], Handshake());
    RunningOn(pinned, w, [Respawn(lingers)] + Handshake(), Calls(k));
    RunningOn(pinned, w, [Respawn(lingers)] + Handshake() + Calls(k), OneCall(body, text));
  }

  /** Up to a call whose id is `n + 3`, and then a line of a lingering reader arrives first. */
  function Overtaken(n: nat, body: string, k: nat): seq<Act> {
    Handshake() + Calls(n) + [Call(body, true), DrainsStale(k), TakeAnswer]
  }

  lemma {:induction false} CallsDoNotSpawn(n: nat)
    ensures NoneLingers(Calls(n))
  {
    if n > 0 { CallsDoNotSpawn(n - 1); }
  }

  lemma OvertakenDoesNotSpawn(n: nat, body: string, k: nat)
    ensures NoneLingers(Overtaken(n, body, k))
  {
    CallsDoNotSpawn(n);
    hide Calls;
  }

  lemma ReadingAStaleLine(pinned: Pinned, w: World, n: nat, body: string, k: nat)
    requires Idle(w, n) && NextOfItsReader(w.stale, k) && w.stale[k].Line? && w.stale[k].message.Response? && w.stale[k].from != w.child
    ensures var w', line := Run(pinned, w, [Call(body, true), DrainsStale(k), TakeAnswer]), w.stale[k];
            && (line.message.id == n + 1 && IsAnswer(line) ==> w'.returned == Some(Returned(body, line.message.result, false)))
            && (line.message.id != n + 1 ==> Wedged(w'))
  {
    var w1 := Step(pinned, w, Call(body, true));
    assert w1.stale == w.stale && w1.queue == [];
    var w2 := Step(pinned, w1, DrainsStale(k));
    assert w2.queue == [w.stale[k]];
    var w3 := Step(pinned, w2, TakeAnswer);
    hide Step;
    Three(pinned, w, Call(body, true), DrainsStale(k), TakeAnswer, w1, w2, w3);
  }

  lemma OvertakenCall(pinned: Pinned, w: World, n: nat, body: string, k: nat)
    requires JustSpawned(w) && Distinct(pinned.tools)
    requires NextOfItsReader(w.stale, k) && w.stale[k].Line? && w.stale[k].message.Response? && w.stale[k].from != w.child
    ensures var w', line := Run(pinned, w, Overtaken(n, body, k)), w.stale[k];
            && (line.message.id == n + 3 && IsAnswer(line) ==> w'.returned == Some(Returned(body, line.message.result, false)))
            && (line.message.id != n + 3 ==> Wedged(w'))
  {
    hide Step, Idle, JustSpawned, IsAnswer, Wedged;
    var end := [Call(body, true), DrainsStale(k), TakeAnswer];
    HandshakeSucceeds(pinned, w);
    var shaken := Run(pinned, w, Handshake());
    CallsSucceed(pinned, shaken, 2, n);
    RunningOn(pinned, w, Handshake(), Calls(n));
    ReadingAStaleLine(pinned, Run(pinned, shaken, Calls(n)), n + 2, body, k);
    RunningOn(pinned, w, Handshake() + Calls(n), end);
  }

  // ---------------------------------------------------------------- when answers are mixed up

  lemma LeftoversAreNext(w: World)
    requires NoLine(w.stale) && Stocked(w, []) && w.pipe != []
    ensures var next := Spawned(w, true);
            && NextOfItsReader(next.stale, |w.stale|) && next.stale[|w.stale|] == w.pipe[0] && w.pipe[0].from != next.child
            && JustSpawned(next)
  {
    var next := Spawned(w, true);
    assert w.pipe[0] in w.pipe;
    forall j | 0 <= j < |w.stale| ensures next.stale[j].from != w.pipe[0].from { assert next.stale[j] == w.stale[j] && w.stale[j] in w.stale; }
  }

  lemma NoneYet()
    ensures Correlated(NOTHING) && Stocked(NOTHING, []) && forall pinned :: Sound(pinned, NOTHING)
  {
  }

  lemma Reached(pinned: Pinned, before: seq<Act>)
    requires Harmless(pinned, NOTHING, before)
    ensures var w := Run(pinned, NOTHING, before); Correlated(w) && Stocked(w, []) && Sound(pinned, w)
  {
    NoneYet();
    hide Correlated, Stocked, Sound;
    RunKeepsCorrelated(pinned, NOTHING, before);
    RunKeepsStocked(pinned, NOTHING, before, []);
    RunStaysSound(pinned, NOTHING, before);
  }

  lemma MixedComesFromThePipe(pinned: Pinned, w: World, after: seq<Act>)
    requires Correlated(w) && Stocked(w, []) && Harmless(pinned, Spawned(w, true), after) && Mixed(Run(pinned, Spawned(w, true), after))
    ensures HoldsAnswer(w.pipe)
  {
    assert NoLine(w.stale);
    SpawningStocks(w);
    hide Correlated, Stocked, Spawned, HoldsAnswer, Run, Harmless, Mixed;
    RunKeepsStocked(pinned, Spawned(w, true), after, w.pipe);
    MixedMeansStock(Run(pinned, Spawned(w, true), after), w.pipe);
  }

  lemma AnswerCanMix(pinned: Pinned, w: World, body: string)
    requires Correlated(w) && Stocked(w, []) && Sound(pinned, w) && HoldsAnswer(w.pipe)
    ensures exists after :: Harmless(pinned, Spawned(w, true), after) && Mixed(Run(pinned, Spawned(w, true), after))
  {
    var i :| 0 <= i < |w.pipe| && IsAnswer(w.pipe[i]);
    hide Correlated, Stocked, Sound, HoldsAnswer, Spawned, Run, Harmless, NoneLingers;
    var after := MixingRun(pinned, w, body, i);
    NoneLingeringIsHarmless(pinned, Spawned(w, true), after);
    assert Mixed(Run(pinned, Spawned(w, true), after));
  }

  /** Whatever happened before, as long as no reader lingered with a line: if the next child is spawned
      while a reader of this one outlives its join, then a caller can be handed an answer that an
      earlier child wrote exactly when this child's pipe holds an answer - and then as the answer to
      any call whatsoever, though the reader of no later child lingers. */
  lemma AnswersMixExactlyWhen(pinned: Pinned, before: seq<Act>, body: string)
    requires Harmless(pinned, NOTHING, before)
    ensures var w := Run(pinned, NOTHING, before);
            var next := Spawned(w, true);
            && ((exists after :: Harmless(pinned, next, after) && Mixed(Run(pinned, next, after))) <==> HoldsAnswer(w.pipe))
            && (forall i | 0 <= i < |w.pipe| && IsAnswer(w.pipe[i]) ::
                  exists after :: NoneLingers(after)
                    && Run(pinned, next, after).returned == Some(Returned(body, w.pipe[i].message.result, false)))
  {
    Reached(pinned, before);
    var w := Run(pinned, NOTHING, before);
    hide Run, Harmless, Spawned, NoneLingers, Correlated, Stocked, Sound, Mixed, HoldsAnswer;
    forall i | 0 <= i < |w.pipe| && IsAnswer(w.pipe[i])
      ensures exists after :: NoneLingers(after)
                && Run(pinned, Spawned(w, true), after).returned == Some(Returned(body, w.pipe[i].message.result, false))
    {
      var after := MixingRun(pinned, w, body, i);
    }
    if HoldsAnswer(w.pipe) {
      AnswerCanMix(pinned, w, body);
    }
    forall after | Harmless(pinned, Spawned(w, true), after) && Mixed(Run(pinned, Spawned(w, true), after)) ensures HoldsAnswer(w.pipe) {
      MixedComesFromThePipe(pinned, w, after);
    }
  }

  lemma MixedMeansStock(w: World, stock: seq<Item>)
    requires Stocked(w, stock) && Mixed(w)
    ensures HoldsAnswer(stock)
  {
  }

  lemma MixingRun(pinned: Pinned, w: World, body: string, i: nat) returns (after: seq<Act>)
    requires Correlated(w) && Stocked(w, []) && Sound(pinned, w) && i < |w.pipe| && IsAnswer(w.pipe[i])
    ensures NoneLingers(after)
    ensures Run(pinned, Spawned(w, true), after).returned == Some(Returned(body, w.pipe[i].message.result, false))
  {
    TheOneLineIsFirst(pinned, w, i);
    assert w.pipe[0] in w.pipe && Plausible(pinned, w.pipe[0]);
    var n: nat := w.pipe[0].message.id - 3;
    after := Overtaken(n, body, |w.stale|);
    LeftoversAreNext(w);
    OvertakenDoesNotSpawn(n, body, |w.stale|);
    hide Run, Overtaken, Spawned, Correlated, Sound, Stocked;
    OvertakenCall(pinned, Spawned(w, true), n, body, |w.stale|);
  }

  // ---------------------------------------------------------------- when the session is wedged

  /** A call's request is outstanding and nobody waits for its response. */
  predicate Wedged(w: World) {
    w.session.pending.Some? && w.session.pending.value.1 == ToolsCall && !w.reading && !w.poisoned && !w.exited
  }

  lemma {:induction false} WedgedStaysWedged(pinned: Pinned, w: World, acts: seq<Act>)
    requires Wedged(w) && forall act | act in acts :: act != Exits
    ensures var w' := Run(pinned, w, acts); Wedged(w') && w'.session == w.session && w'.returned == w.returned && w'.child == w.child
    decreases |acts|
  {
    if acts != [] {
      var w1 := Step(pinned, w, acts[0]);
      assert acts[0] in acts && forall act | act in acts[1..] :: act in acts;
      assert Wedged(w1) && w1.session == w.session && w1.returned == w.returned && w1.child == w.child by { hide Serve; }
      hide Step, Wedged;
      WedgedStaysWedged(pinned, w1, acts[1..]);
    }
  }

  /** A line with a foreign id poisons nothing and leaves its request outstanding. Whatever happens
      then, short of the child's exit: every further call is refused, none respawns, none returns. */
  lemma ForeignLineWedgesTheSession(pinned: Pinned, w: World, acts: seq<Act>, body: string, approved: bool, lingers: bool)
    requires Waiting(w, ToolsCall) && w.asking.Some? && !w.poisoned && !w.exited
    requires w.queue != [] && w.queue[0].Line? && w.queue[0].message.Response?
    requires w.queue[0].message.id != w.session.pending.value.0
    requires forall act | act in acts :: act != Exits
    ensures var stuck := Step(pinned, w, TakeAnswer);
            var end := Run(pinned, stuck, acts);
            && stuck == w.(queue := w.queue[1..], reading := false)
            && Wedged(end) && end.session == w.session && end.returned == w.returned && end.child == w.child
            && Step(pinned, end, Call(body, approved)) == end
            && Step(pinned, end, Respawn(lingers)) == end
            && Step(pinned, Step(pinned, end, Exits), Respawn(lingers)).child == end.child + 1
  {
    var stuck := Step(pinned, w, TakeAnswer);
    assert Wedged(stuck);
    WedgedStaysWedged(pinned, stuck, acts);
    hide Run;
  }

  predicate Attended(w: World) {
    w.session.pending.Some? && w.session.pending.value.1 == ToolsCall && !w.poisoned ==> w.reading
  }

  lemma AnswerStaysAttended(pinned: Pinned, w: World)
    requires Correlated(w) && Sound(pinned, w) && Attended(w)
    ensures Attended(Step(pinned, w, TakeAnswer))
  {
    hide Correlated, Sound, InFlight, Requests;
    if w.queue != [] && w.queue[0].Line? {
      ReadingEmpties(w);
      HeadIsResponse(pinned, w);
    }
  }

  lemma HeadIsResponse(pinned: Pinned, w: World)
    requires Sound(pinned, w) && w.queue != [] && w.queue[0].Line?
    ensures w.queue[0].message.Response?
  {
    assert Plausible(pinned, w.queue[0]);
  }

  lemma StepStaysAttended(pinned: Pinned, w: World, act: Act)
    requires Correlated(w) && Sound(pinned, w) && Attended(w)
    ensures Attended(Step(pinned, w, act))
  {
    hide Correlated, Sound, Serve, Verified, NextOfItsReader;
    if act.TakeAnswer? {
      hide Attended;
      AnswerStaysAttended(pinned, w);
    }
  }

  lemma {:induction false} RunStaysAttended(pinned: Pinned, w: World, acts: seq<Act>)
    requires Correlated(w) && Sound(pinned, w) && Attended(w) && Harmless(pinned, w, acts)
    ensures Attended(Run(pinned, w, acts))
    decreases |acts|
  {
    hide Correlated, Sound, Attended, Step;
    if acts != [] {
      StepKeepsCorrelated(pinned, w, acts[0]);
      StepStaysSound(pinned, w, acts[0]);
      StepStaysAttended(pinned, w, acts[0]);
      RunStaysAttended(pinned, Step(pinned, w, acts[0]), acts[1..]);
    }
  }

  /** And under the same circumstances the next child's session can be wedged exactly when this
      child's pipe holds any line at all. */
  lemma SessionsWedgeExactlyWhen(pinned: Pinned, before: seq<Act>)
    requires Harmless(pinned, NOTHING, before) && Distinct(pinned.tools)
    ensures var w := Run(pinned, NOTHING, before);
            var next := Spawned(w, true);
            (exists after :: Harmless(pinned, next, after) && Wedged(Run(pinned, next, after))) <==> !NoLine(w.pipe)
  {
    var w := Run(pinned, NOTHING, before);
    var next := Spawned(w, true);
    Reached(pinned, before);
    hide Run, Harmless;
    if NoLine(w.pipe) {
      SpawningKeepsCorrelated(w, true);
      StepStaysSound(pinned, w.(poisoned := true), Respawn(true));
      assert Attended(next);
      hide Correlated, Sound, Spawned, Wedged;
      forall after | Harmless(pinned, next, after) ensures !Wedged(Run(pinned, next, after)) {
        RunStaysAttended(pinned, next, after);
        AttendedIsNotWedged(Run(pinned, next, after));
      }
    } else {
      hide Spawned, Correlated, Sound, Stocked, Wedged;
      var after := WedgingRun(pinned, w);
      NoneLingeringIsHarmless(pinned, next, after);
    }
  }

  lemma AttendedIsNotWedged(w: World)
    requires Attended(w)
    ensures !Wedged(w)
  {
  }

  lemma WedgingRun(pinned: Pinned, w: World) returns (after: seq<Act>)
    requires Correlated(w) && Stocked(w, []) && Sound(pinned, w) && !NoLine(w.pipe) && Distinct(pinned.tools)
    ensures NoneLingers(after) && Wedged(Run(pinned, Spawned(w, true), after))
  {
    var item :| item in w.pipe && item.Line?;
    var i :| 0 <= i < |w.pipe| && w.pipe[i] == item;
    TheOneLineIsFirst(pinned, w, i);
    assert w.pipe[0] in w.pipe && Plausible(pinned, w.pipe[0]);
    var n := if w.pipe[0].message.id == 3 then 1 else 0;
    after := Overtaken(n, "", |w.stale|);
    LeftoversAreNext(w);
    OvertakenDoesNotSpawn(n, "", |w.stale|);
    hide Run, Overtaken, Spawned, Correlated, Sound, Stocked;
    OvertakenCall(pinned, Spawned(w, true), n, "", |w.stale|);
  }

  /** Two calls on two children: the first times out and its answer comes late. */
  function LateAnswer(body: string, text: string): seq<Act> {
    [Respawn(false)] + Handshake() + [Call(body, true), Handles(text, false), TimesOut, Respawn(true)]
  }

  lemma FirstCallIsLate(pinned: Pinned, w: World, body: string, text: string)
    requires Idle(w, 2) && w.child == 1 && w.stale == []
    ensures var late := Run(pinned, w, [Call(body, true), Handles(text, false), TimesOut, Respawn(true)]);
            JustSpawned(late) && late.child == 2 && late.stale == [Line(1, Response(3, Answer(body, text, false))), Eof(1)]
  {
    var line := Line(1, Response(3, Answer(body, text, false)));
    var w1 := Step(pinned, w, Call(body, true));
    assert w1.inbox == [Request(3, ToolsCall, body)];
    var w2 := Step(pinned, w1, Handles(text, false));
    assert [] + [line] == [line];
    assert w2.pipe == [line];
    var w3 := Step(pinned, w2, TimesOut);
    var w4 := Step(pinned, w3, Respawn(true));
    assert w4.stale == [] + ([line] + [Eof(1)]) == [line, Eof(1)];
    hide Step;
    Four(pinned, w, Call(body, true), Handles(text, false), TimesOut, Respawn(true), w1, w2, w3, w4);
  }

  /** It happens: ids start again with each child, so if a reader thread outlives its join, the late
      answer to one call is accepted as the answer to another. */
  lemma LingeringReaderMixesAnswers(pinned: Pinned, first: string, second: string, text: string)
    requires Distinct(pinned.tools)
    ensures Run(pinned, NOTHING, LateAnswer(first, text) + Overtaken(0, second, 0)).returned
         == Some(Returned(second, Answer(first, text, false), false))
  {
    var spawned := Step(pinned, NOTHING, Respawn(false));
    assert JustSpawned(spawned) && spawned.child == 1 && spawned.stale == [];
    var late := [Call(first, true), Handles(text, false), TimesOut, Respawn(true)];
    assert Run(pinned, NOTHING, [Respawn(false)]) == Run(pinned, spawned, []) == spawned;
    hide Step, JustSpawned, Idle, Overtaken;
    HandshakeSucceeds(pinned, spawned);
    var shaken := Run(pinned, spawned, Handshake());
    FirstCallIsLate(pinned, shaken, first, text);
    RunningOn(pinned, NOTHING, [Respawn(false)], Handshake());
    RunningOn(pinned, NOTHING, [Respawn(false)] + Handshake(), late);
    OvertakenCall(pinned, Run(pinned, shaken, late), 0, second, 0);
    RunningOn(pinned, NOTHING, LateAnswer(first, text), Overtaken(0, second, 0));
  }

  // ---------------------------------------------------------------- time-outs and deaths

  predicate NoRespawn(acts: seq<Act>) {
    forall act | act in acts :: !act.Respawn?
  }

  lemma {:induction false} PoisonedServesNobody(pinned: Pinned, w: World, acts: seq<Act>)
    requires w.poisoned && !w.reading && NoRespawn(acts)
    ensures var w' := Run(pinned, w, acts);
            w'.poisoned && !w'.reading && w'.returned == w.returned && w'.session == w.session && w'.child == w.child
    decreases |acts|
  {
    if acts != [] {
      assert acts[0] in acts && NoRespawn(acts[1..]);
      PoisonedServesNobody(pinned, Step(pinned, w, acts[0]), acts[1..]);
    }
  }

  /** A call that waits in vain, or reads the end of its child's output, poisons the child: it returns
      nothing, and until the child is replaced nothing that happens returns anything, asks anything or
      changes the session. The replacement begins a session of its own with an empty queue. */
  lemma TimeoutsAndDeathsPoison(pinned: Pinned, w: World, act: Act, acts: seq<Act>, lingers: bool)
    requires w.reading && NoRespawn(acts)
    requires if w.queue == [] then act == TimesOut else act == TakeAnswer && w.queue[0].Eof? && Waiting(w, ToolsCall) && w.asking.Some?
    ensures var w' := Run(pinned, Step(pinned, w, act), acts);
            && w'.returned == w.returned && w'.session == w.session && w'.child == w.child && w'.poisoned
            && var next := Step(pinned, w', Respawn(lingers));
               && next.child == w.child + 1 && !next.poisoned && next.queue == [] && next.pipe == []
               && next.inbox == [Request(1, Initialize, PROTOCOL)] && next.session.state == Initializing && !next.session.verified
               && next.returned == w.returned
  {
    PoisonedServesNobody(pinned, Step(pinned, w, act), acts);
  }
}

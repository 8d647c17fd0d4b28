/**
 * The booking coordinator: it streams the chat model's answer to the user's query and
 * routes on the first tool call it recognises, relaying every plain chat message that
 * arrives before it. The prompt template and the chat model are parameters.
 */
module Coordinator {
  import opened Wrappers
  import opened Messages
  import opened Graph
  import opened BookingState

  /** A function schema offered to the chat model. */
  datatype ToolSchema = ToolSchema(name: string, description: string)

  /** The routing tools' names. */
  const FaqName: string := "faq"
  const BookingName: string := "booking"

  const FaqSchema: ToolSchema := ToolSchema("faq", "Answers questions about ticket policies and general information")
  const BookingSchema: ToolSchema := ToolSchema("booking", "Handles ticket booking and modification requests")

  /** What the chat model streams: assistant messages. */
  type Reply = m: Message | m.AssistantMessage? witness AssistantMessage(Text(""), None)

  /** The node a recognised tool name routes to; any other name is an error. */
  function RouteFor(name: string): (r: Result<Node>)
    ensures r == Ok(Faq) <==> name == FaqName
    ensures r == Ok(Operation) <==> name == BookingName
    ensures r.Err? <==> name != FaqName && name != BookingName
  {
    if name == FaqName then Ok(Faq)
    else if name == BookingName then Ok(Operation)
    else Err(ValueError("Unknown tool call: " + name))
  }

  /** A tool call the coordinator looks at: present, with a function. */
  predicate Routable(c: Option<ToolCall>) {
    c.Some? && c.value.func.Some?
  }

  /** The route the first routable call of a message decides, if any. */
  function Decision(calls: seq<Option<ToolCall>>): (r: Option<Result<Node>>)
    ensures r.None? <==> forall k :: 0 <= k < |calls| ==> !Routable(calls[k])
  {
    if calls == [] then None
    else if Routable(calls[0]) then Some(RouteFor(calls[0].value.func.value.name))
    else Decision(calls[1..])
  }

  /** The first routable call decides, by its name, whatever follows it. */
  lemma {:induction false} DecisionIsFirst(calls: seq<Option<ToolCall>>, k: nat)
    requires k < |calls| && Routable(calls[k])
    requires forall j :: 0 <= j < k ==> !Routable(calls[j])
    ensures Decision(calls) == Some(RouteFor(calls[k].value.func.value.name))
  {
    if k > 0 {
      DecisionIsFirst(calls[1..], k - 1);
    }
  }

  /** The message decides a route. */
  predicate Deciding(m: Reply) {
    Decision(m.toolCalls.GetOr([])).Some?
  }

  /** The chat event a message writes: one, with its content, exactly when it has no tool-call list. */
  function Relayed(m: Reply): seq<StreamData> {
    if m.toolCalls.None? then [ChatEvent(ContentText(m.content))] else []
  }

  /** The chat events of a stream of messages, in stream order. */
  function ChatEvents(stream: seq<Reply>): seq<StreamData> {
    if stream == [] then [] else Relayed(stream[0]) + ChatEvents(stream[1..])
  }

  /** The route and the written events for a stream: the first deciding message ends it. */
  function Coordinate(stream: seq<Reply>): (Result<Node>, seq<StreamData>) {
    if stream == [] then (Ok(EndNode), [])
    else match Decision(stream[0].toolCalls.GetOr([]))
      case Some(route) => (route, [])
      case None =>
        var rest := Coordinate(stream[1..]);
        (rest.0, Relayed(stream[0]) + rest.1)
  }

  /**
   * With message `k` the first that decides (or `k` the stream's length when none does),
   * the route is that message's decision (or END), and the events are the chat events of
   * the messages before it.
   */
  lemma {:induction false} CoordinateFirstDecision(stream: seq<Reply>, k: nat)
    requires k <= |stream|
    requires forall j :: 0 <= j < k ==> !Deciding(stream[j])
    requires k < |stream| ==> Deciding(stream[k])
    ensures Coordinate(stream).0 == if k == |stream| then Ok(EndNode) else Decision(stream[k].toolCalls.GetOr([])).value
    ensures Coordinate(stream).1 == ChatEvents(stream[..k])
  {
    if k == 0 {
      assert stream[..0] == [];
    } else {
      CoordinateFirstDecision(stream[1..], k - 1);
      assert stream[..k][1..] == stream[1..][..k - 1];
    }
  }

  /** A stream of plain chat messages routes to END after relaying every one of them. */
  lemma ChatOnlyStream(stream: seq<Reply>)
    requires forall j :: 0 <= j < |stream| ==> stream[j].toolCalls.None?
    ensures Coordinate(stream) == (Ok(EndNode), ChatEvents(stream))
    ensures |ChatEvents(stream)| == |stream|
  {
    CoordinateFirstDecision(stream, |stream|);
    assert stream[..|stream|] == stream;
    ChatEventsAll(stream);
  }

  lemma {:induction false} ChatEventsAll(stream: seq<Reply>)
    requires forall j :: 0 <= j < |stream| ==> stream[j].toolCalls.None?
    ensures |ChatEvents(stream)| == |stream|
  {
    if stream != [] {
      ChatEventsAll(stream[1..]);
    }
  }

  /** A call named after either offered schema routes to that tool's node. */
  lemma SchemasMatchRoutes()
    ensures RouteFor(FaqSchema.name) == Ok(Faq) && RouteFor(BookingSchema.name) == Ok(Operation)
  {
  }

  /** The command a route becomes. */
  function GotoRoute(route: Result<Node>): Result<Command<StateUpdate, State>> {
    match route
    case Ok(n) => Ok(Command(GotoNode(n.Value()), None))
    case Err(e) => Err(e)
  }

  /**
   * The coordinator's collaborators: the prompt template, given the query's content and
   * the history, and the chat model's stream for a prompt, a temperature and tool schemas.
   */
  datatype CoordinatorBackends = CoordinatorBackends(
    render: (Content, seq<HistoryMsg>) -> string,
    astream: (Message, real, seq<ToolSchema>) -> seq<Reply>)

  /** The stream the coordinator reads for a state. */
  function StreamFor(state: State, b: CoordinatorBackends): seq<Reply> {
    b.astream(UserMessage(Text(b.render(state.query.content, state.history))), 0.0, [FaqSchema, BookingSchema])
  }

  /**
   * The inner loop of `CoordinatorNode.process` over one message's tool calls: the first
   * call with a function decides the route by its name.
   */
  method ScanToolCalls(toolCalls: seq<Option<ToolCall>>) returns (route: Option<Result<Node>>)
    ensures route == Decision(toolCalls)
  {
    var j := 0;
    assert toolCalls[0..] == toolCalls;
    while j < |toolCalls|
      invariant 0 <= j <= |toolCalls|
      invariant Decision(toolCalls) == Decision(toolCalls[j..])
    {
      DecisionStep(toolCalls, j);
      var toolCall := toolCalls[j];
      if toolCall.None? || toolCall.value.func.None? {
        j := j + 1;
        continue;
      }
      var name := toolCall.value.func.value.name;
      if name == FaqName {
        return Some(Ok(Faq));
      } else if name == BookingName {
        return Some(Ok(Operation));
      } else {
        return Some(Err(ValueError("Unknown tool call: " + name)));
      }
    }
    assert toolCalls[j..] == [];
    return None;
  }

  /** `CoordinatorNode.process`: the loop over the streamed messages with its early returns and the writer. */
  method Process(state: State, b: CoordinatorBackends) returns (r: Result<Command<StateUpdate, State>>, events: seq<StreamData>)
    ensures r == GotoRoute(Coordinate(StreamFor(state, b)).0)
    ensures events == Coordinate(StreamFor(state, b)).1
  {
    var stream := StreamFor(state, b);
    events := [];
    var i := 0;
    assert stream[0..] == stream;
    while i < |stream|
      invariant 0 <= i <= |stream|
      invariant Coordinate(stream).0 == Coordinate(stream[i..]).0
      invariant Coordinate(stream).1 == events + Coordinate(stream[i..]).1
    {
      var message := stream[i];
      CoordinateStep(stream, i);
      var route := ScanToolCalls(message.toolCalls.GetOr([]));
      if route.Some? {
        assert Coordinate(stream[i..]) == (route.value, []);
        return GotoRoute(route.value), events;
      }
      ghost var rest := Coordinate(stream[i + 1..]);
      assert Coordinate(stream[i..]) == (rest.0, Relayed(message) + rest.1);
      events := events + Relayed(message);
      i := i + 1;
    }
    assert stream[i..] == [];
    r := Ok(Command(GotoNode(EndNode.Value()), None));
  }

  /** One step of the scan over a message's tool calls. */
  lemma DecisionStep(calls: seq<Option<ToolCall>>, j: nat)
    requires j < |calls|
    ensures Decision(calls[j..]) == if Routable(calls[j]) then Some(RouteFor(calls[j].value.func.value.name)) else Decision(calls[j + 1..])
  {
    assert calls[j..][1..] == calls[j + 1..];
  }

  /** One step of the scan over the stream. */
  lemma CoordinateStep(stream: seq<Reply>, i: nat)
    requires i < |stream|
    ensures Coordinate(stream[i..]) ==
      match Decision(stream[i].toolCalls.GetOr([]))
      case Some(route) => (route, [])
      case None => (Coordinate(stream[i + 1..]).0, Relayed(stream[i]) + Coordinate(stream[i + 1..]).1)
  {
    assert stream[i..][0] == stream[i];
    assert stream[i..][1..] == stream[i + 1..];
  }
}

/**
 * The prebuilt ReAct workflow: an agent node that asks the chat model for the next
 * message, a router that sends every tool call of the agent's answer to the tool node
 * or the human-tool node, and the two tool nodes, which check the state they receive,
 * look the tool up by name and answer with a tool response carrying the call's id.
 * The chat model, the argument decoder and the tools themselves are parameters.
 */
module React {
  import opened Wrappers
  import opened Messages
  import opened Graph

  /** A message of the workflow's history: a chat message, or a tool's response to one call. */
  datatype ReactMessage = Chat(message: Message) | ToolResponse(toolCallId: string, content: string)

  /** The workflow state; its `messages` field is reduced by list concatenation. */
  datatype ReactState = ReactState(messages: seq<ReactMessage>)

  /** The reducer of `messages`: an update is appended to the current list. */
  function AddMessages(current: seq<ReactMessage>, update: seq<ReactMessage>): seq<ReactMessage> {
    current + update
  }

  /**
   * A tool: its name, the schema offered to the chat model, and the call itself, from
   * decoded parameters to the string rendering of its response (or the error it raises).
   */
  datatype Tool<!P> = Tool(name: string, schema: string, invoke: P -> Result<string>)

  // ---------------------------------------------------------------------------
  // The tool maps
  // ---------------------------------------------------------------------------

  /** `{tool.name: tool for tool in tools}`: keyed by name, later tools overwriting earlier ones. */
  function ToolMap<P>(tools: seq<Tool<P>>): (m: map<string, Tool<P>>)
    ensures forall n :: n in m <==> exists i :: 0 <= i < |tools| && tools[i].name == n
    decreases |tools|
  {
    if tools == [] then map[]
    else
      var init := tools[..|tools| - 1];
      var m := ToolMap(init);
      assert forall i :: 0 <= i < |init| ==> init[i] == tools[i];
      m[tools[|tools| - 1].name := tools[|tools| - 1]]
  }

  /** A name maps to the last tool that carries it. */
  lemma {:induction false} ToolMapLastWins<P>(tools: seq<Tool<P>>, i: nat)
    requires i < |tools|
    requires forall j :: i < j < |tools| ==> tools[j].name != tools[i].name
    ensures tools[i].name in ToolMap(tools) && ToolMap(tools)[tools[i].name] == tools[i]
    decreases |tools|
  {
    if i < |tools| - 1 {
      var init := tools[..|tools| - 1];
      ToolMapLastWins(init, i);
    }
  }

  /** The schemas offered to the chat model: the plain tools' and then the human tools', in order. */
  function Schemas<P>(tools: seq<Tool<P>>): (r: seq<string>)
    ensures |r| == |tools| && forall i :: 0 <= i < |tools| ==> r[i] == tools[i].schema
  {
    seq(|tools|, i requires 0 <= i < |tools| => tools[i].schema)
  }

  // ---------------------------------------------------------------------------
  // The agent node
  // ---------------------------------------------------------------------------

  /** The chat model: the history and the tool schemas in, the assistant's message out. */
  type ChatModel = (seq<ReactMessage>, seq<string>) -> Result<Message>

  /** The agent node as written: its update is the whole history followed by the response. */
  function AgentNodeAsWritten<P>(state: ReactState, tools: seq<Tool<P>>, humanTools: seq<Tool<P>>, achat: ChatModel)
    : (r: Result<seq<ReactMessage>>)
    ensures r.Ok? <==> achat(state.messages, Schemas(tools + humanTools)).Ok?
    ensures r.Ok? ==> r.value == state.messages + [Chat(achat(state.messages, Schemas(tools + humanTools)).value)]
  {
    var response :- achat(state.messages, Schemas(tools + humanTools));
    Ok(state.messages + [Chat(response)])
  }

  /**
   * Because the update is appended to the current history by the reducer, every agent
   * turn on a non-empty history repeats that history before the response.
   */
  lemma AgentTurnDuplicatesHistory<P>(state: ReactState, tools: seq<Tool<P>>, humanTools: seq<Tool<P>>, achat: ChatModel)
    requires state.messages != []
    requires achat(state.messages, Schemas(tools + humanTools)).Ok?
    ensures var response := Chat(achat(state.messages, Schemas(tools + humanTools)).value);
      && AddMessages(state.messages, AgentNodeAsWritten(state, tools, humanTools, achat).value)
         == state.messages + state.messages + [response]
      && AddMessages(state.messages, AgentNodeAsWritten(state, tools, humanTools, achat).value)
         != state.messages + [response]
  {
    var response := Chat(achat(state.messages, Schemas(tools + humanTools)).value);
    var after := AddMessages(state.messages, AgentNodeAsWritten(state, tools, humanTools, achat).value);
    assert |after| == 2 * |state.messages| + 1;
  }

  /** The agent node as intended: its update is the response alone. */
  function AgentNode<P>(state: ReactState, tools: seq<Tool<P>>, humanTools: seq<Tool<P>>, achat: ChatModel)
    : (r: Result<seq<ReactMessage>>)
    ensures r.Ok? <==> achat(state.messages, Schemas(tools + humanTools)).Ok?
    ensures r.Ok? ==> |r.value| == 1 && r.value[0].Chat?
  {
    var response :- achat(state.messages, Schemas(tools + humanTools));
    Ok([Chat(response)])
  }

  /** With the intended update, an agent turn appends exactly the response to the history. */
  lemma AgentTurnAppendsResponse<P>(state: ReactState, tools: seq<Tool<P>>, humanTools: seq<Tool<P>>, achat: ChatModel)
    requires achat(state.messages, Schemas(tools + humanTools)).Ok?
    ensures AddMessages(state.messages, AgentNode(state, tools, humanTools, achat).value)
         == state.messages + [Chat(achat(state.messages, Schemas(tools + humanTools)).value)]
  {
  }

  // ---------------------------------------------------------------------------
  // The router
  // ---------------------------------------------------------------------------

  /** The calls the router dispatches: those with a function, in call order. */
  function Dispatched(calls: seq<Option<ToolCall>>): (r: seq<ToolCall>)
    ensures |r| <= |calls|
    ensures forall k :: 0 <= k < |r| ==> r[k].func.Some?
  {
    if calls == [] then []
    else (if calls[0].Some? && calls[0].value.func.Some? then [calls[0].value] else []) + Dispatched(calls[1..])
  }

  /** Exactly the calls with a function are dispatched. */
  lemma {:induction false} DispatchedExactly(calls: seq<Option<ToolCall>>, tc: ToolCall)
    ensures tc in Dispatched(calls) <==> Some(tc) in calls && tc.func.Some?
  {
    if calls != [] {
      DispatchedExactly(calls[1..], tc);
      assert calls == [calls[0]] + calls[1..];
    }
  }

  /** The send for one call: a state holding an empty assistant message with only that call. */
  function SendFor<P>(tc: ToolCall, humanTools: map<string, Tool<P>>): (s: Send<ReactState>)
    requires tc.func.Some?
    ensures s.node == (if tc.func.value.name in humanTools then "human_tools" else "tools")
    ensures s.arg.messages == [Chat(AssistantMessage(Text(""), Some([Some(tc)])))]
  {
    var message := AssistantMessage(Text(""), Some([Some(tc)]));
    var node := if tc.func.value.name in humanTools then "human_tools" else "tools";
    Send(node, ReactState([Chat(message)]))
  }

  /** The last message is an assistant message. */
  predicate EndsWithAssistant(state: ReactState) {
    state.messages != [] && state.messages[|state.messages| - 1].Chat?
    && state.messages[|state.messages| - 1].message.AssistantMessage?
  }

  /** The tool calls of the last message, `None` read as none. */
  function LastToolCalls(state: ReactState): seq<Option<ToolCall>>
    requires EndsWithAssistant(state)
  {
    state.messages[|state.messages| - 1].message.toolCalls.GetOr([])
  }

  /**
   * `_decide_tool_calls`: end when there is no message or the last one is not the
   * assistant's; otherwise one send per call with a function, in call order. A `None`
   * entry in the call list fails on reading its function.
   */
  method DecideToolCalls<P>(state: ReactState, humanTools: map<string, Tool<P>>) returns (r: Result<seq<Send<ReactState>>>)
    ensures !EndsWithAssistant(state) ==> r == Ok([Send(End(), state)])
    ensures EndsWithAssistant(state) ==> (r.Ok? <==> forall k :: 0 <= k < |LastToolCalls(state)| ==> LastToolCalls(state)[k].Some?)
    ensures EndsWithAssistant(state) && r.Ok? ==> (
      var calls := Dispatched(LastToolCalls(state));
      |r.value| == |calls| && forall k :: 0 <= k < |calls| ==> r.value[k] == SendFor(calls[k], humanTools))
  {
    if |state.messages| < 1 {
      return Ok([Send(End(), state)]);
    }
    var lastMessage := state.messages[|state.messages| - 1];
    if lastMessage.Chat? && lastMessage.message.AssistantMessage? {
      var toolCalls := lastMessage.message.toolCalls.GetOr([]);
      var sendSignals: seq<Send<ReactState>> := [];
      var i := 0;
      while i < |toolCalls|
        invariant 0 <= i <= |toolCalls|
        invariant forall k :: 0 <= k < i ==> toolCalls[k].Some?
        invariant var calls := Dispatched(toolCalls[..i]);
          |sendSignals| == |calls| && forall k :: 0 <= k < |calls| ==> sendSignals[k] == SendFor(calls[k], humanTools)
      {
        DispatchedSnoc(toolCalls[..i], toolCalls[i]);
        assert toolCalls[..i + 1] == toolCalls[..i] + [toolCalls[i]];
        var toolCall := toolCalls[i];
        if toolCall.None? {
          assert LastToolCalls(state)[i].None?;
          return Err(AttributeError("'NoneType' object has no attribute 'function'"));
        }
        i := i + 1;
        if toolCall.value.func.None? {
          continue;
        }
        sendSignals := sendSignals + [SendFor(toolCall.value, humanTools)];
      }
      assert toolCalls[..i] == toolCalls;
      return Ok(sendSignals);
    }
    return Ok([Send(End(), state)]);
  }

  lemma {:induction false} DispatchedSnoc(calls: seq<Option<ToolCall>>, c: Option<ToolCall>)
    ensures Dispatched(calls + [c]) == Dispatched(calls) + (if c.Some? && c.value.func.Some? then [c.value] else [])
  {
    if calls == [] {
      assert [] + [c] == [c];
    } else {
      assert (calls + [c])[1..] == calls[1..] + [c];
      DispatchedSnoc(calls[1..], c);
    }
  }

  // ---------------------------------------------------------------------------
  // The tool nodes
  // ---------------------------------------------------------------------------

  /**
   * `_validate_tool_call`: the state must end with an assistant message holding exactly
   * one tool call, and that call must be present.
   */
  function ValidateToolCall(state: ReactState): (r: Result<ToolCall>)
    ensures r.Ok? <==> (EndsWithAssistant(state)
      && state.messages[|state.messages| - 1].message.toolCalls.Some?
      && |state.messages[|state.messages| - 1].message.toolCalls.value| == 1
      && state.messages[|state.messages| - 1].message.toolCalls.value[0].Some?)
    ensures r.Ok? ==> state.messages[|state.messages| - 1].message.toolCalls == Some([Some(r.value)])
    ensures state.messages == [] ==> r == Err(ValueError("Expected > 1 message"))
  {
    if |state.messages| < 1 then Err(ValueError("Expected > 1 message"))
    else
      var lastMessage := state.messages[|state.messages| - 1];
      if !(lastMessage.Chat? && lastMessage.message.AssistantMessage?) then
        Err(ValueError("Expected the last message should be AssistantMessage"))
      else if lastMessage.message.toolCalls.None? || |lastMessage.message.toolCalls.value| != 1 then
        Err(ValueError("Expected the last message tool_calls should not be None"))
      else if lastMessage.message.toolCalls.value[0].None? then
        Err(ValueError("Expected the last message tool_calls should be ChatCompletionMessageToolCall"))
      else
        assert lastMessage.message.toolCalls.value == [lastMessage.message.toolCalls.value[0]];
        Ok(lastMessage.message.toolCalls.value[0].value)
  }

  /** Every state the router sends passes the tool nodes' check and yields the very call it was built from. */
  lemma RoutedCallValidates<P>(tc: ToolCall, humanTools: map<string, Tool<P>>)
    requires tc.func.Some?
    ensures ValidateToolCall(SendFor(tc, humanTools).arg) == Ok(tc)
  {
  }

  /**
   * `_tools` and `_human_tools`: check the state, decode the call's arguments, look the
   * tool up by name (an unknown name is an error naming the map searched), call it, and
   * answer with one tool response carrying the call's id.
   */
  function RunTool<P>(state: ReactState, tools: map<string, Tool<P>>, loads: string -> Result<P>, human: bool)
    : (r: Result<seq<ReactMessage>>)
    ensures ValidateToolCall(state).Err? ==> r == Err(ValidateToolCall(state).error)
    ensures r.Ok? ==> (
      var tc := ValidateToolCall(state).value;
      && tc.func.Some? && tc.func.value.name in tools && loads(tc.func.value.arguments).Ok?
      && tools[tc.func.value.name].invoke(loads(tc.func.value.arguments).value).Ok?
      && r.value == [ToolResponse(tc.id, tools[tc.func.value.name].invoke(loads(tc.func.value.arguments).value).value)])
    ensures (ValidateToolCall(state).Ok? && ValidateToolCall(state).value.func.Some?
             && loads(ValidateToolCall(state).value.func.value.arguments).Ok?
             && ValidateToolCall(state).value.func.value.name !in tools) ==>
      var name := ValidateToolCall(state).value.func.value.name;
      r == Err(ValueError((if human then "Can not find human tool-name: " else "Can not find tool-name: ") + name + "."))
  {
    var toolCall :- ValidateToolCall(state);
    if toolCall.func.None? then Err(AttributeError("'NoneType' object has no attribute 'arguments'"))
    else
      var paramsDict :- loads(toolCall.func.value.arguments);
      var name := toolCall.func.value.name;
      if name !in tools then
        Err(ValueError((if human then "Can not find human tool-name: " else "Can not find tool-name: ") + name + "."))
      else
        var response :- tools[name].invoke(paramsDict);
        Ok([ToolResponse(toolCall.id, response)])
  }

  /** A routed call to a known tool whose arguments decode gets the tool's answer under the call's id. */
  lemma RoutedCallAnswered<P>(tc: ToolCall, humanTools: map<string, Tool<P>>, tools: map<string, Tool<P>>,
                              loads: string -> Result<P>, human: bool)
    requires tc.func.Some? && tc.func.value.name in tools && loads(tc.func.value.arguments).Ok?
    requires tools[tc.func.value.name].invoke(loads(tc.func.value.arguments).value).Ok?
    ensures RunTool(SendFor(tc, humanTools).arg, tools, loads, human)
         == Ok([ToolResponse(tc.id, tools[tc.func.value.name].invoke(loads(tc.func.value.arguments).value).value)])
  {
    RoutedCallValidates(tc, humanTools);
  }

  // ---------------------------------------------------------------------------
  // build
  // ---------------------------------------------------------------------------

  /** The router returns sends, so its possible targets are listed as its routes. */
  const ReactGraph: Topology := Topology(
    "agent",
    ["agent", "tools", "human_tools"],
    [("tools", "agent"), ("human_tools", "agent")],
    [("agent", [("tools", "tools"), ("human_tools", "human_tools"), (End(), End())])],
    false)

  /** The agent hands over to either tool node or ends; both tool nodes return to the agent. */
  lemma ReactGraphWiring()
    ensures ReactGraph.WellFormed() && ReactGraph.entry == "agent"
    ensures ReactGraph.Successors("agent") == ["tools", "human_tools", End()]
    ensures ReactGraph.Successors("tools") == ["agent"]
    ensures ReactGraph.Successors("human_tools") == ["agent"]
  {
    ReactGraphWellFormed();
    ReactAgentSuccessors();
    ReactToolSuccessors();
  }

  lemma ReactGraphWellFormed()
    ensures ReactGraph.WellFormed()
  {
  }

  lemma ReactAgentSuccessors()
    ensures ReactGraph.Successors("agent") == ["tools", "human_tools", End()]
  {
  }

  lemma ReactToolSuccessors()
    ensures ReactGraph.Successors("tools") == ["agent"]
    ensures ReactGraph.Successors("human_tools") == ["agent"]
  {
  }
}

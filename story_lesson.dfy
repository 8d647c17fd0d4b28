/**
 * The story-writing lesson graph: an outline node asks the outline program for topics
 * and, when user feedback is allowed, asks the user to accept them; every accepted topic
 * is sent to a story writer, which streams the chat model's story; the stories are
 * finally gathered into one markdown text. The prompt templates, the outline program's
 * parsing client and the chat model are parameters, and the user's answer is supplied.
 */
module StoryLesson {
  import opened Wrappers
  import opened Strings
  import opened Messages
  import opened Graph
  import Seqs
  import ProgramsBase

  // ---------------------------------------------------------------------------
  // Outline
  // ---------------------------------------------------------------------------

  datatype Outline = Outline(topics: seq<string>)

  /** The line for the topic at 1-based position `idx`. */
  function TopicLine(idx: nat, topic: string): string {
    "- Topic [" + NatToString(idx) + "]: " + topic
  }

  /** The topic lines of an outline, numbered from 1. */
  function TopicLines(topics: seq<string>): (r: seq<string>)
    ensures |r| == |topics|
    ensures forall i :: 0 <= i < |topics| ==> r[i] == TopicLine(i + 1, topics[i])
  {
    seq(|topics|, i requires 0 <= i < |topics| => TopicLine(i + 1, topics[i]))
  }

  /** The outline's text: its topic lines joined by newlines. */
  function OutlineText(o: Outline): string {
    Join(TopicLines(o.topics), "\n")
  }

  /** No topics render as the empty text; one more topic adds a newline and its line. */
  lemma OutlineTextShape(topics: seq<string>, t: string)
    ensures OutlineText(Outline([])) == ""
    ensures OutlineText(Outline([t])) == TopicLine(1, t)
    ensures topics != [] ==>
      OutlineText(Outline(topics + [t])) == OutlineText(Outline(topics)) + "\n" + TopicLine(|topics| + 1, t)
  {
    if topics != [] {
      assert TopicLines(topics + [t]) == TopicLines(topics) + [TopicLine(|topics| + 1, t)];
      JoinSnoc(TopicLines(topics), TopicLine(|topics| + 1, t), "\n");
    }
  }

  /** `Outline.content`: the loop building one line per topic, then the join. */
  method OutlineContent(o: Outline) returns (r: string)
    ensures r == OutlineText(o)
  {
    var contents: seq<string> := [];
    var idx := 0;
    while idx < |o.topics|
      invariant 0 <= idx <= |o.topics|
      invariant contents == TopicLines(o.topics[..idx])
    {
      var content := TopicLine(idx + 1, o.topics[idx]);
      contents := contents + [content];
      idx := idx + 1;
    }
    assert o.topics[..idx] == o.topics;
    r := Join(contents, "\n");
  }

  // ---------------------------------------------------------------------------
  // State
  // ---------------------------------------------------------------------------

  datatype StoryInput = StoryInput(topic: string)

  datatype StoryOutput = StoryOutput(content: string)

  /** The default number of topics. */
  const NumTopics: int := 1

  /** The graph's input; `feedbacks` is reduced by list concatenation. */
  datatype StateInput = StateInput(feedbacks: seq<string>, allowUserFeedback: bool, numTopics: int)

  /** The graph's state; `feedbacks` and `stories` are reduced by list concatenation. */
  datatype State = State(input: StateInput, outline: Outline, stories: seq<StoryOutput>, markdown: string)

  /** A state update with only `feedbacks` set, the other fields at their defaults. */
  function FeedbackUpdate(feedback: string): StateInput {
    StateInput([feedback], true, NumTopics)
  }

  /** The runtime applying a feedback update: the list reducer appends the new feedbacks. */
  function ApplyFeedbacks(state: State, update: StateInput): State {
    state.(input := state.input.(feedbacks := state.input.feedbacks + update.feedbacks))
  }

  // ---------------------------------------------------------------------------
  // Outline planning
  // ---------------------------------------------------------------------------

  /** The outline node's collaborators: the planning and feedback templates, and the program's parsing client. */
  datatype OutlineBackends = OutlineBackends(
    renderPlanning: (int, string) -> string,
    renderFeedback: string -> string,
    parse: seq<OpenAIMessage> -> ProgramsBase.ParsedCompletion<Outline>)

  /** What Python raises when an attribute is read off a missing outline. */
  const NoTopics: string := "'NoneType' object has no attribute 'topics'"
  const NoContent: string := "'NoneType' object has no attribute 'content'"

  /**
   * The outline program's answer to the planning prompt, with earlier feedbacks
   * separated by blank lines: the program's errors, or its parsed outline, which is
   * None when the client parsed nothing.
   */
  function ProgramOutline(input: StateInput, b: OutlineBackends): (r: Result<Option<Outline>>)
    ensures r.Err? ==> r.error.IndexError? || r.error.ParsedResultError?
  {
    var prompt := b.renderPlanning(input.numTopics, Join(input.feedbacks, "\n\n"));
    ProgramsBase.AProcess(Some(UserMessage(Text(prompt))), None, None, b.parse)
  }

  /** The outline whose `topics` are read: reading them off a missing outline raises. */
  function PlannedOutline(input: StateInput, b: OutlineBackends): (r: Result<Outline>)
    ensures ProgramOutline(input, b).Err? ==> r == Err(ProgramOutline(input, b).error)
    ensures ProgramOutline(input, b) == Ok(None) ==> r == Err(AttributeError(NoTopics))
    ensures ProgramOutline(input, b).Ok? && ProgramOutline(input, b).value.Some? ==>
      r == Ok(ProgramOutline(input, b).value.value)
  {
    var outline :- ProgramOutline(input, b);
    if outline.None? then Err(AttributeError(NoTopics))
    else Ok(outline.value)
  }

  /** One `Send` to the story writer per topic, in topic order. */
  function SendTopics(topics: seq<string>): (r: Command<StateInput, StoryInput>)
    ensures r.update.None? && r.goto.GotoSends?
    ensures |r.goto.sends| == |topics|
    ensures forall i :: 0 <= i < |topics| ==> r.goto.sends[i] == Send("write-story", StoryInput(topics[i]))
  {
    Command(GotoSends(seq(|topics|, i requires 0 <= i < |topics| => Send("write-story", StoryInput(topics[i])))), None)
  }

  /** `plan_outline_wo_feedback`: every planned topic goes straight to the story writer. */
  function PlanOutlineWithoutFeedback(input: StateInput, b: OutlineBackends): (r: Result<Command<StateInput, StoryInput>>)
    ensures r.Ok? <==> PlannedOutline(input, b).Ok?
    ensures r.Ok? ==> r.value == SendTopics(PlannedOutline(input, b).value.topics)
  {
    var outline :- PlannedOutline(input, b);
    Ok(SendTopics(outline.topics))
  }

  /** What `plan_outline` returns: a command, or a plain update setting the outline (None when nothing was parsed). */
  datatype PlanResult = PlanCommand(command: Command<StateInput, StoryInput>) | OutlineUpdate(outline: Option<Outline>)

  /** The plan node's outcome: its result, and the question it interrupts with, if it asks one. */
  datatype PlanOutcome = PlanOutcome(result: PlanResult, interrupt: Option<string>)

  /**
   * `plan_outline`, with `resume` the user's answer to the interrupt: with feedback
   * allowed, the outline's `content` is rendered into the question (a missing outline
   * raises there), then the answer `y` in any case sends every topic to the writer and
   * any other answer plans again with that answer as a new feedback; with feedback
   * disallowed the outline, even a missing one, is only stored.
   */
  function PlanOutline(input: StateInput, resume: string, b: OutlineBackends): (r: Result<PlanOutcome>)
    ensures ProgramOutline(input, b).Err? ==> r == Err(ProgramOutline(input, b).error)
    ensures ProgramOutline(input, b) == Ok(None) && input.allowUserFeedback ==> r == Err(AttributeError(NoContent))
    ensures ProgramOutline(input, b).Ok? && ProgramOutline(input, b).value.Some? && input.allowUserFeedback ==>
      var outline := ProgramOutline(input, b).value.value;
      && r.Ok?
      && r.value.interrupt == Some(b.renderFeedback(OutlineText(outline)))
      && (IsYes(resume) ==> r.value.result == PlanCommand(SendTopics(outline.topics)))
      && (!IsYes(resume) ==> r.value.result == PlanCommand(Command(GotoNode("plan-outline"), Some(FeedbackUpdate(resume)))))
    ensures ProgramOutline(input, b).Ok? && !input.allowUserFeedback ==>
      r == Ok(PlanOutcome(OutlineUpdate(ProgramOutline(input, b).value), None))
  {
    var outline :- ProgramOutline(input, b);
    if input.allowUserFeedback then
      if outline.None? then Err(AttributeError(NoContent))
      else
        var question := b.renderFeedback(OutlineText(outline.value));
        if Lower(resume) == "y" then Ok(PlanOutcome(PlanCommand(SendTopics(outline.value.topics)), Some(question)))
        else Ok(PlanOutcome(PlanCommand(Command(GotoNode("plan-outline"), Some(FeedbackUpdate(resume)))), Some(question)))
    else Ok(PlanOutcome(OutlineUpdate(outline), None))
  }

  /** With feedback allowed, an accepted outline and the graph-less variant send the same topics. */
  lemma AcceptedOutlineSendsTopics(input: StateInput, resume: string, b: OutlineBackends)
    requires input.allowUserFeedback && (resume == "y" || resume == "Y")
    requires PlanOutline(input, resume, b).Ok?
    ensures PlanOutline(input, resume, b).value.result == PlanCommand(PlanOutlineWithoutFeedback(input, b).value)
  {
    IsYesExactly(resume);
  }

  /** A rejected outline plans again, and the next prompt sees every earlier feedback followed by the answer. */
  lemma RejectedOutlineFeedsBack(state: State, resume: string, b: OutlineBackends)
    requires state.input.allowUserFeedback && resume != "y" && resume != "Y"
    requires PlanOutline(state.input, resume, b).Ok?
    ensures var result := PlanOutline(state.input, resume, b).value.result;
      && result.PlanCommand? && result.command.goto == GotoNode("plan-outline")
      && result.command.update.Some?
      && ApplyFeedbacks(state, result.command.update.value).input.feedbacks == state.input.feedbacks + [resume]
  {
    IsYesExactly(resume);
  }

  /**
   * With feedback disallowed the node sends nothing and asks nothing, so no story is
   * written; it fails only when the program does, and a missing outline is stored as is.
   */
  lemma DisallowedFeedbackSendsNothing(input: StateInput, resume: string, b: OutlineBackends)
    requires !input.allowUserFeedback
    ensures PlanOutline(input, resume, b).Ok? <==> ProgramOutline(input, b).Ok?
    ensures PlanOutline(input, resume, b).Ok? ==>
      PlanOutline(input, resume, b).value.result.OutlineUpdate? && PlanOutline(input, resume, b).value.interrupt.None?
  {
  }

  // ---------------------------------------------------------------------------
  // Story writing
  // ---------------------------------------------------------------------------

  /** A custom stream event: the streamed message under the `"story-streaming"` key. */
  datatype StoryEvent = StoryStreaming(message: Message)

  /** The writer's collaborators: the story template and the chat model's streamed deltas for a prompt. */
  datatype StoryBackends = StoryBackends(renderStory: string -> string, astream: Message -> seq<string>)

  /** The deltas streamed for a topic. */
  function StoryDeltas(input: StoryInput, b: StoryBackends): seq<string> {
    b.astream(UserMessage(Text(b.renderStory(input.topic))))
  }

  /**
   * `write_story`: the loop accumulating the streamed deltas, writing one event per
   * delta; it returns exactly one story, the deltas concatenated in order.
   */
  method WriteStory(input: StoryInput, b: StoryBackends) returns (stories: seq<StoryOutput>, events: seq<StoryEvent>)
    ensures stories == [StoryOutput(Seqs.Flatten(StoryDeltas(input, b)))]
    ensures |events| == |StoryDeltas(input, b)|
    ensures forall k :: 0 <= k < |events| ==> events[k] == StoryStreaming(AssistantMessage(Text(StoryDeltas(input, b)[k]), None))
  {
    var deltas := StoryDeltas(input, b);
    var fullContent := "";
    events := [];
    var i := 0;
    while i < |deltas|
      invariant 0 <= i <= |deltas|
      invariant fullContent == Seqs.Flatten(deltas[..i])
      invariant |events| == i
      invariant forall k :: 0 <= k < i ==> events[k] == StoryStreaming(AssistantMessage(Text(deltas[k]), None))
    {
      assert deltas[..i + 1] == deltas[..i] + [deltas[i]];
      Seqs.FlattenSnoc(deltas[..i], deltas[i]);
      fullContent := fullContent + deltas[i];
      events := events + [StoryStreaming(AssistantMessage(Text(deltas[i]), None))];
      i := i + 1;
    }
    assert deltas[..i] == deltas;
    stories := [StoryOutput(fullContent)];
  }

  // ---------------------------------------------------------------------------
  // Gathering
  // ---------------------------------------------------------------------------

  /** The contents of the stories, in state order. */
  function Contents(stories: seq<StoryOutput>): (r: seq<string>)
    ensures |r| == |stories|
    ensures forall i :: 0 <= i < |stories| ==> r[i] == stories[i].content
  {
    seq(|stories|, i requires 0 <= i < |stories| => stories[i].content)
  }

  /** `gather_story`: the stories' contents separated by blank lines. */
  function GatherStory(state: State): string {
    Join(Contents(state.stories), "\n\n")
  }

  /** No story gathers to the empty text, one to its content, and one more adds a blank line and its content. */
  lemma GatherStoryShape(state: State, s: StoryOutput)
    ensures state.stories == [] ==> GatherStory(state) == ""
    ensures state.stories == [s] ==> GatherStory(state) == s.content
    ensures state.stories != [] ==>
      GatherStory(state.(stories := state.stories + [s])) == GatherStory(state) + "\n\n" + s.content
  {
    if state.stories != [] {
      assert Contents(state.stories + [s]) == Contents(state.stories) + [s.content];
      JoinSnoc(Contents(state.stories), s.content, "\n\n");
    }
  }

  // ---------------------------------------------------------------------------
  // get_graph
  // ---------------------------------------------------------------------------

  /** Three nodes; the writer leads to the gatherer, the planner moves by commands; a memory checkpointer. */
  const StoryGraph: Topology := Topology(
    "plan-outline",
    ["plan-outline", "write-story", "gather-stories"],
    [("write-story", "gather-stories")],
    [],
    true)

  lemma StoryGraphWiring()
    ensures StoryGraph.WellFormed() && StoryGraph.entry == "plan-outline" && StoryGraph.checkpointer
    ensures StoryGraph.Successors("write-story") == ["gather-stories"]
    ensures StoryGraph.Successors("plan-outline") == [] && StoryGraph.Successors("gather-stories") == []
  {
  }

  /** Every topic the planner sends goes to a node of the graph, the story writer. */
  lemma SendsReachWriter(topics: seq<string>, i: nat)
    requires i < |topics|
    ensures SendTopics(topics).goto.sends[i].node == "write-story" && "write-story" in StoryGraph.nodes
  {
  }
}

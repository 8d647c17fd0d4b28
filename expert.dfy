/**
 * The section expert's dialog: it asks questions about a section, answers each query
 * with web results, stops after enough questions, and summarises everything found.
 * The question program, the web search, the token splitter, the chat model and the
 * prompt templates are parameters.
 */
module Expert {
  import opened Wrappers
  import opened Messages
  import opened Document
  import opened Graph
  import Seqs
  import MacroReport

  /** The question program's output: the queries to run. */
  datatype DialogQuestion = DialogQuestion(question: seq<string>)

  datatype Summarization = Summarization(sectionId: string, content: string)

  datatype Settings = Settings(topk: int, maxQuestions: int, maxQueries: int,
                               chunkSize: int, chunkOverlap: int, encodingModelName: string)

  const DefaultSettings := Settings(2, 5, 1, 4096 * 20, 0, "gpt-4o")

  datatype DialogState = DialogState(
    topic: string,
    section: MacroReport.Section,
    summarizations: seq<Summarization>,
    conversations: seq<Message>,
    question: Option<DialogQuestion>,
    searchResults: seq<seq<ScoredChunk>>)

  // ---------------------------------------------------------------------------
  // conversation_context
  // ---------------------------------------------------------------------------

  /** The line one message contributes; a system message has none. */
  function Line(m: Message): Option<string> {
    match m
    case UserMessage(c) => Some("Question: " + ContentText(c) + "\n\n")
    case AssistantMessage(c, _) => Some("Answer: " + ContentText(c) + "\n\n")
    case SystemMessage(_) => None
  }

  /** The conversation rendered line by line, or the error a system message raises. */
  function ConversationText(conversations: seq<Message>): Result<string>
    decreases |conversations|
  {
    if conversations == [] then Ok("")
    else
      var init :- ConversationText(conversations[..|conversations| - 1]);
      match Line(conversations[|conversations| - 1])
      case None => Err(ValueError("Invalid role in conversation"))
      case Some(line) => Ok(init + line)
  }

  /** Rendering fails exactly when some message is a system message. */
  lemma {:induction false} ConversationTextFails(conversations: seq<Message>)
    ensures ConversationText(conversations).Err? <==> exists i :: 0 <= i < |conversations| && conversations[i].SystemMessage?
    ensures ConversationText(conversations).Err? ==> ConversationText(conversations) == Err(ValueError("Invalid role in conversation"))
    decreases |conversations|
  {
    if conversations != [] {
      var init := conversations[..|conversations| - 1];
      ConversationTextFails(init);
      if exists i :: 0 <= i < |init| && init[i].SystemMessage? {
        var i :| 0 <= i < |init| && init[i].SystemMessage?;
        assert conversations[i] == init[i];
      }
      if exists i :: 0 <= i < |conversations| && conversations[i].SystemMessage? {
        var i :| 0 <= i < |conversations| && conversations[i].SystemMessage?;
        if i < |init| {
          assert init[i] == conversations[i];
        }
      }
    }
  }

  /** Appending a question and its answer appends their two lines, in that order. */
  lemma QuestionAnswerLines(conversations: seq<Message>, q: string, a: string)
    requires ConversationText(conversations).Ok?
    ensures ConversationText(conversations + [UserMessage(Text(q)), AssistantMessage(Text(a), None)])
         == Ok(ConversationText(conversations).value + ("Question: " + q + "\n\n") + ("Answer: " + a + "\n\n"))
  {
    var c1 := conversations + [UserMessage(Text(q))];
    var c2 := c1 + [AssistantMessage(Text(a), None)];
    assert c2 == conversations + [UserMessage(Text(q)), AssistantMessage(Text(a), None)];
    assert c2[..|c2| - 1] == c1;
    assert c1[..|c1| - 1] == conversations;
  }

  /** The `conversation_context` property: the loop adding one line per message. */
  method ConversationContext(conversations: seq<Message>) returns (r: Result<string>)
    ensures r == ConversationText(conversations)
  {
    var context := "";
    var i := 0;
    while i < |conversations|
      invariant 0 <= i <= |conversations|
      invariant ConversationText(conversations[..i]) == Ok(context)
    {
      var conversation := conversations[i];
      assert conversations[..i + 1][..i] == conversations[..i];
      if conversation.SystemMessage? {
        ConversationTextFails(conversations);
        return Err(ValueError("Invalid role in conversation"));
      }
      if conversation.UserMessage? {
        context := context + ("Question: " + ContentText(conversation.content) + "\n\n");
      } else {
        context := context + ("Answer: " + ContentText(conversation.content) + "\n\n");
      }
      i := i + 1;
    }
    assert conversations[..i] == conversations;
    r := Ok(context);
  }

  // ---------------------------------------------------------------------------
  // summarization_context
  // ---------------------------------------------------------------------------

  /** One fresh container per result list, holding that list. */
  method Containers(searchResults: seq<seq<ScoredChunk>>) returns (others: seq<ScoredChunks>)
    ensures |others| == |searchResults|
    ensures forall k :: 0 <= k < |others| ==> fresh(others[k]) && others[k].root == searchResults[k]
  {
    others := [];
    var i := 0;
    while i < |searchResults|
      invariant 0 <= i <= |searchResults|
      invariant |others| == i
      invariant forall k :: 0 <= k < i ==> fresh(others[k]) && others[k].root == searchResults[k]
    {
      var results := new ScoredChunks(searchResults[i]);
      others := others + [results];
      i := i + 1;
    }
  }

  /** `summarization_context`: every result list extended into an empty list, sorted by descending score, rendered. */
  method SummarizationContext(searchResults: seq<seq<ScoredChunk>>) returns (context: string)
    ensures context == RenderContext(SortByScore(Seqs.Flatten(searchResults), true))
  {
    var others := Containers(searchResults);
    var all := new ScoredChunks([]);
    ghost var parts := all.Parts(others);
    forall j | 0 <= j < |others|
      ensures parts[j] == Some(searchResults[j])
    {
      assert others[j] != all;
    }
    assert Values(parts) == searchResults;
    ExtendAppendsAll([], parts);
    assert [] + Seqs.Flatten(searchResults) == Seqs.Flatten(searchResults);
    var extended := all.Extend(others);
    var sorted := extended.Sort(true);
    context := sorted.Context();
  }

  // ---------------------------------------------------------------------------
  // should_continue
  // ---------------------------------------------------------------------------

  /** The router's decision after a question was asked. */
  datatype Decision = No | Yes {
    function Value(): string {
      if No? then "no" else "yes"
    }
  }

  /** The decision from the number of queries asked and the number of messages so far. */
  function Continues(queryCount: nat, conversationCount: nat, maxQuestions: int): (d: Decision)
    ensures d == Yes <==> queryCount > 0 && conversationCount / 2 < maxQuestions
  {
    if queryCount == 0 then No
    else if conversationCount / 2 >= maxQuestions then No
    else Yes
  }

  /** `should_continue`: stop when there is no query, or when enough question-answer pairs were exchanged. */
  function ShouldContinue(state: DialogState, settings: Settings): (d: Decision)
    ensures state.question.None? || state.question.value.question == [] ==> d == No
    ensures |state.conversations| / 2 >= settings.maxQuestions ==> d == No
    ensures state.question.Some? && state.question.value.question != [] && |state.conversations| / 2 < settings.maxQuestions ==> d == Yes
  {
    var queryCount := if state.question.None? then 0 else |state.question.value.question|;
    Continues(queryCount, |state.conversations|, settings.maxQuestions)
  }

  /**
   * The number of answer rounds before the dialog reaches `summarize`, starting with
   * `conversationCount` messages, when the `k`-th question has `queries(k)` queries
   * and every answer round adds two messages per query.
   */
  function AnswerRounds(conversationCount: nat, maxQuestions: int, queries: nat -> nat, k: nat): (rounds: nat)
    ensures rounds <= if maxQuestions - conversationCount / 2 > 0 then maxQuestions - conversationCount / 2 else 0
    decreases maxQuestions - conversationCount / 2
  {
    if Continues(queries(k), conversationCount, maxQuestions) == No then 0
    else 1 + AnswerRounds(conversationCount + 2 * queries(k), maxQuestions, queries, k + 1)
  }

  /** From a fresh dialog, at most `max_questions` answer rounds run before `summarize`. */
  lemma DialogTerminates(settings: Settings, queries: nat -> nat)
    ensures AnswerRounds(0, settings.maxQuestions, queries, 0) <= if settings.maxQuestions > 0 then settings.maxQuestions else 0
  {
  }

  // ---------------------------------------------------------------------------
  // answer_question
  // ---------------------------------------------------------------------------

  /** The state update of `answer_question`, added to the state by the list reducers. */
  datatype DialogUpdate = DialogUpdate(conversations: seq<Message>, searchResults: seq<seq<ScoredChunk>>)

  /**
   * `answer_question`: one web search per query, all gathered in order (the first
   * failure makes the node fail), then per query a user message with the query and an
   * assistant message with the rendered results.
   */
  method AnswerQuestion(state: DialogState, settings: Settings, search: (string, int) -> Result<seq<ScoredChunk>>)
    returns (r: Result<DialogUpdate>)
    ensures state.question.None? ==> r == Err(ValueError("No question to answer"))
    ensures state.question.Some? && (forall q :: q in state.question.value.question ==> search(q, settings.topk).Ok?) ==> r.Ok?
    ensures r.Ok? ==> (state.question.Some? &&
      var queries := state.question.value.question;
      && |r.value.conversations| == 2 * |queries|
      && |r.value.searchResults| == |queries|
      && forall i :: 0 <= i < |queries| ==>
           && search(queries[i], settings.topk).Ok?
           && r.value.searchResults[i] == search(queries[i], settings.topk).value
           && r.value.conversations[2 * i] == UserMessage(Text(queries[i]))
           && r.value.conversations[2 * i + 1] == AssistantMessage(Text(RenderContext(r.value.searchResults[i])), None))
  {
    if state.question.None? {
      return Err(ValueError("No question to answer"));
    }
    var queries := state.question.value.question;
    var retrievalResultsList: seq<seq<ScoredChunk>> := [];
    var i := 0;
    while i < |queries|
      invariant 0 <= i <= |queries|
      invariant |retrievalResultsList| == i
      invariant forall k :: 0 <= k < i ==> search(queries[k], settings.topk).Ok? && retrievalResultsList[k] == search(queries[k], settings.topk).value
    {
      var found := search(queries[i], settings.topk);
      if found.Err? {
        return Err(found.error);
      }
      retrievalResultsList := retrievalResultsList + [found.value];
      i := i + 1;
    }
    var conversations: seq<Message> := [];
    var flattenSearchResults: seq<seq<ScoredChunk>> := [];
    i := 0;
    while i < |queries|
      invariant 0 <= i <= |queries|
      invariant |conversations| == 2 * i && flattenSearchResults == retrievalResultsList[..i]
      invariant forall k :: 0 <= k < i ==>
        conversations[2 * k] == UserMessage(Text(queries[k]))
        && conversations[2 * k + 1] == AssistantMessage(Text(RenderContext(retrievalResultsList[k])), None)
    {
      var retrievalResults := new ScoredChunks(retrievalResultsList[i]);
      var context := retrievalResults.Context();
      conversations := conversations + [UserMessage(Text(queries[i])), AssistantMessage(Text(context), None)];
      flattenSearchResults := flattenSearchResults + [retrievalResultsList[i]];
      assert retrievalResultsList[..i + 1] == retrievalResultsList[..i] + [retrievalResultsList[i]];
      i := i + 1;
    }
    assert retrievalResultsList[..i] == retrievalResultsList;
    r := Ok(DialogUpdate(conversations, flattenSearchResults));
  }

  // ---------------------------------------------------------------------------
  // summarize
  // ---------------------------------------------------------------------------

  /** The collaborators of `summarize`. */
  datatype SummarizeBackends = SummarizeBackends(
    split: (string, int, int, string) -> seq<string>,
    prompt: (string, string) -> string,
    achat: Message -> Result<Message>)

  /**
   * `summarize`: split the summarization context into token-bounded pieces, refuse when
   * there is none, and summarise only the first piece into one summarization for the section.
   */
  method Summarize(state: DialogState, settings: Settings, b: SummarizeBackends) returns (r: Result<seq<Summarization>>)
    ensures var pieces := b.split(settings.encodingModelName, settings.chunkSize, settings.chunkOverlap,
                                  RenderContext(SortByScore(Seqs.Flatten(state.searchResults), true)));
      && (pieces == [] ==> r == Err(ValueError("No tokens to summarize")))
      && (pieces != [] ==>
            var response := b.achat(UserMessage(Text(b.prompt(state.section.title, pieces[0]))));
            r == if response.Err? then Err(response.error)
                 else Ok([Summarization(state.section.id, ContentText(response.value.content))]))
  {
    var context := SummarizationContext(state.searchResults);
    var splittedTokens := b.split(settings.encodingModelName, settings.chunkSize, settings.chunkOverlap, context);
    if |splittedTokens| == 0 {
      return Err(ValueError("No tokens to summarize"));
    }
    var chatResponse := b.achat(UserMessage(Text(b.prompt(state.section.title, splittedTokens[0]))));
    if chatResponse.Err? {
      return Err(chatResponse.error);
    }
    r := Ok([Summarization(state.section.id, ContentText(chatResponse.value.content))]);
  }

  // ---------------------------------------------------------------------------
  // build_graph
  // ---------------------------------------------------------------------------

  const DialogGraph: Topology := Topology(
    "update-section",
    ["update-section", "ask-question", "answer-question", "summarize"],
    [("update-section", "ask-question"), ("answer-question", "ask-question"), ("summarize", End())],
    [("ask-question", [("no", "summarize"), ("yes", "answer-question")])],
    false)

  /** After asking, the dialog either summarises or answers; answering asks again; summarising ends. */
  lemma DialogGraphWiring()
    ensures DialogGraph.WellFormed() && DialogGraph.entry == "update-section"
    ensures DialogGraph.Successors("update-section") == ["ask-question"]
    ensures DialogGraph.Successors("ask-question") == ["summarize", "answer-question"]
    ensures DialogGraph.Successors("answer-question") == ["ask-question"]
    ensures DialogGraph.Successors("summarize") == [End()]
  {
    DialogGraphWellFormed();
    DialogAskSuccessors();
    DialogOtherSuccessors();
  }

  lemma DialogGraphWellFormed()
    ensures DialogGraph.WellFormed()
  {
  }

  lemma DialogAskSuccessors()
    ensures DialogGraph.Successors("ask-question") == ["summarize", "answer-question"]
  {
  }

  lemma DialogOtherSuccessors()
    ensures DialogGraph.Successors("update-section") == ["ask-question"]
    ensures DialogGraph.Successors("answer-question") == ["ask-question"]
    ensures DialogGraph.Successors("summarize") == [End()]
  {
  }
}

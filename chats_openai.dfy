/**
 * The Azure OpenAI chat model that assembles its request itself: the optional system
 * message, the history and the optional user message, each converted to the client's
 * dictionary form. The client is a parameter.
 */
module ChatsOpenAI {
  import opened Wrappers
  import opened Messages
  import opened ChatCompletions

  /** `aggregate_messages`: the history converted, the user message after it, the system message before it. */
  function AggregateMessages(message: Option<UserMsg>, systemMessage: Option<SystemMsg>,
                             history: Option<seq<HistoryMsg>>): (r: Result<seq<OpenAIMessage>>)
    ensures message.None? && systemMessage.None? <==> r == Err(ValueError(NoMessage))
  {
    if message.None? && systemMessage.None? then Err(ValueError(NoMessage))
    else
      var h := history.GetOr([]);
      var messages := AsOpenAIList(h);
      var messages := if message.Some? then messages + [ToOpenAI(message.value)] else messages;
      var messages := if systemMessage.Some? then [ToOpenAI(systemMessage.value)] + messages else messages;
      Ok(messages)
  }

  /** The request is the conversation `Messages.from_conversation` assembles, converted message by message. */
  lemma AggregateConverts(message: Option<UserMsg>, systemMessage: Option<SystemMsg>, history: Option<seq<HistoryMsg>>)
    ensures AggregateMessages(message, systemMessage, history).Ok? ==>
      AggregateMessages(message, systemMessage, history).value == AsOpenAIList(FromConversation(message, systemMessage, history).value)
  {
  }

  /**
   * The assembled request has the system message first, then the history converted
   * in order, then the user message, so its length is the history's plus one per
   * message given.
   */
  lemma AggregateOrder(message: Option<UserMsg>, systemMessage: Option<SystemMsg>, history: Option<seq<HistoryMsg>>)
    requires message.Some? || systemMessage.Some?
    ensures AggregateMessages(message, systemMessage, history).Ok?
    ensures |AggregateMessages(message, systemMessage, history).value|
         == (if systemMessage.Some? then 1 else 0) + |history.GetOr([])| + (if message.Some? then 1 else 0)
    ensures systemMessage.Some? ==>
      AggregateMessages(message, systemMessage, history).value[0] == ToOpenAI(systemMessage.value)
      && AggregateMessages(message, systemMessage, history).value[0].role == "system"
    ensures var s := if systemMessage.Some? then 1 else 0;
      AggregateMessages(message, systemMessage, history).value[s..s + |history.GetOr([])|] == AsOpenAIList(history.GetOr([]))
    ensures message.Some? ==>
      var r := AggregateMessages(message, systemMessage, history).value;
      r[|r| - 1] == ToOpenAI(message.value) && r[|r| - 1].role == "user"
  {
    var h: seq<Message> := history.GetOr([]);
    var first := if systemMessage.Some? then [ToOpenAI(systemMessage.value)] else [];
    var last := if message.Some? then [ToOpenAI(message.value)] else [];
    assert AggregateMessages(message, systemMessage, history).value == first + AsOpenAIList(h) + last;
    ThreeParts(first, AsOpenAIList(h), last);
    if systemMessage.Some? {
      assert systemMessage.value.Role() == SystemRole;
    }
    if message.Some? {
      assert message.value.Role() == UserRole;
    }
  }

  /** Where the parts of a three-part concatenation sit. */
  lemma ThreeParts<T>(a: seq<T>, b: seq<T>, c: seq<T>)
    ensures |a + b + c| == |a| + |b| + |c|
    ensures (a + b + c)[|a|..|a| + |b|] == b
    ensures |a| == 1 ==> (a + b + c)[0] == a[0]
    ensures |c| == 1 ==> (a + b + c)[|a + b + c| - 1] == c[0]
  {
    assert (a + b + c)[|a|..|a| + |b|] == b;
  }

  /** `astream`: the request, then the stream filtered to one assistant message per non-empty delta. */
  method AStream(message: Option<UserMsg>, systemMessage: Option<SystemMsg>, history: Option<seq<HistoryMsg>>,
                 temperature: real, maxCompletionTokens: Option<int>,
                 complete: ChatRequest -> seq<ChatCompletionChunk>) returns (r: Result<seq<Message>>)
    ensures message.None? && systemMessage.None? <==> r == Err(ValueError(NoMessage))
    ensures r.Ok? ==>
      var stream := complete(ChatRequest(AggregateMessages(message, systemMessage, history).value, temperature, maxCompletionTokens));
      && |r.value| == |StreamedTexts(stream)|
      && forall i :: 0 <= i < |r.value| ==> r.value[i] == Assistant(StreamedTexts(stream)[i])
  {
    var messages :- AggregateMessages(message, systemMessage, history);
    var out := FilterDeltas(complete(ChatRequest(messages, temperature, maxCompletionTokens)));
    r := Ok(out);
  }

  /** `achat`: the request, then the first choice's content, or an error when there is no choice. */
  function AChat(message: Option<UserMsg>, systemMessage: Option<SystemMsg>, history: Option<seq<HistoryMsg>>,
                 temperature: real, maxCompletionTokens: Option<int>,
                 complete: ChatRequest -> ChatCompletion): (r: Result<Message>)
    ensures message.None? && systemMessage.None? ==> r == Err(ValueError(NoMessage))
    ensures message.Some? || systemMessage.Some? ==>
      r == ChatResult(complete(ChatRequest(AsOpenAIList(FromConversation(message, systemMessage, history).value), temperature, maxCompletionTokens)))
  {
    AggregateConverts(message, systemMessage, history);
    var messages :- AggregateMessages(message, systemMessage, history);
    ChatResult(complete(ChatRequest(messages, temperature, maxCompletionTokens)))
  }
}

/**
 * The second Azure OpenAI chat model, which assembles its request through
 * `Messages.from_conversation(...).as_openai_list()`. The client is a parameter.
 */
module ChatsImplOpenAI {
  import opened Wrappers
  import opened Messages
  import opened ChatCompletions
  import ChatsOpenAI

  /** The request messages: the assembled conversation, converted in order. */
  function RequestMessages(message: Option<UserMsg>, systemMessage: Option<SystemMsg>,
                           history: Option<seq<HistoryMsg>>): Result<seq<OpenAIMessage>> {
    var conversation :- FromConversation(message, systemMessage, history);
    Ok(AsOpenAIList(conversation))
  }

  /** Both chat models send the same request for the same conversation, and fail alike. */
  lemma SameRequestAsAggregate(message: Option<UserMsg>, systemMessage: Option<SystemMsg>, history: Option<seq<HistoryMsg>>)
    ensures RequestMessages(message, systemMessage, history) == ChatsOpenAI.AggregateMessages(message, systemMessage, history)
  {
    ChatsOpenAI.AggregateConverts(message, systemMessage, history);
  }

  /** `astream`. */
  method AStream(message: Option<UserMsg>, systemMessage: Option<SystemMsg>, history: Option<seq<HistoryMsg>>,
                 temperature: real, maxCompletionTokens: Option<int>,
                 complete: ChatRequest -> seq<ChatCompletionChunk>) returns (r: Result<seq<Message>>)
    ensures message.None? && systemMessage.None? <==> r == Err(ValueError(NoMessage))
    ensures r.Ok? ==>
      var stream := complete(ChatRequest(RequestMessages(message, systemMessage, history).value, temperature, maxCompletionTokens));
      && |r.value| == |StreamedTexts(stream)|
      && forall i :: 0 <= i < |r.value| ==> r.value[i] == Assistant(StreamedTexts(stream)[i])
  {
    var messages :- RequestMessages(message, systemMessage, history);
    var out := FilterDeltas(complete(ChatRequest(messages, temperature, maxCompletionTokens)));
    r := Ok(out);
  }

  /** `achat`. */
  function AChat(message: Option<UserMsg>, systemMessage: Option<SystemMsg>, history: Option<seq<HistoryMsg>>,
                 temperature: real, maxCompletionTokens: Option<int>,
                 complete: ChatRequest -> ChatCompletion): (r: Result<Message>)
    ensures message.None? && systemMessage.None? ==> r == Err(ValueError(NoMessage))
    ensures (message.Some? || systemMessage.Some?) && |complete(ChatRequest(RequestMessages(message, systemMessage, history).value, temperature, maxCompletionTokens)).choices| == 0
      ==> r == Err(ValueError("No response from OpenAI"))
    ensures r == ChatsOpenAI.AChat(message, systemMessage, history, temperature, maxCompletionTokens, complete)
  {
    var messages :- RequestMessages(message, systemMessage, history);
    ChatResult(complete(ChatRequest(messages, temperature, maxCompletionTokens)))
  }
}

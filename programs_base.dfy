/**
 * Structured-output programs: the request is assembled like the chat model's, the
 * client parses the reply into the program's output type, and a refusal is an error.
 * The client is a parameter returning the parsed completion.
 */
module ProgramsBase {
  import opened Wrappers
  import opened Messages
  import ChatsOpenAI

  /** The first choice's message of a parsed completion. */
  datatype ParsedMessage<T> = ParsedMessage(refusal: Option<string>, parsed: Option<T>)

  datatype ParsedCompletion<T> = ParsedCompletion(choices: seq<ParsedMessage<T>>)

  /**
   * `aprocess`: the assembled messages go to the parsing client. With no choice,
   * indexing the first fails; a non-empty refusal is raised as `ParsedResultError`;
   * otherwise the parsed value is returned (None when the client parsed nothing).
   */
  function AProcess<T>(message: Option<UserMsg>, systemMessage: Option<SystemMsg>, history: Option<seq<HistoryMsg>>,
                       parse: seq<OpenAIMessage> -> ParsedCompletion<T>): (r: Result<Option<T>>)
    ensures message.None? && systemMessage.None? ==> r == Err(ValueError(NoMessage))
    ensures message.Some? || systemMessage.Some? ==>
      var completion := parse(AsOpenAIList(FromConversation(message, systemMessage, history).value));
      && (|completion.choices| == 0 ==> r == Err(IndexError("list index out of range")))
      && (|completion.choices| > 0 && completion.choices[0].refusal.Some? && completion.choices[0].refusal.value != "" ==>
            r == Err(ParsedResultError(completion.choices[0].refusal.value)))
      && (|completion.choices| > 0 && (completion.choices[0].refusal.None? || completion.choices[0].refusal.value == "") ==>
            r == Ok(completion.choices[0].parsed))
  {
    ChatsOpenAI.AggregateConverts(message, systemMessage, history);
    var allMessages :- ChatsOpenAI.AggregateMessages(message, systemMessage, history);
    var completion := parse(allMessages);
    if |completion.choices| == 0 then Err(IndexError("list index out of range"))
    else
      var firstChoice := completion.choices[0];
      if firstChoice.refusal.Some? && firstChoice.refusal.value != "" then Err(ParsedResultError(firstChoice.refusal.value))
      else Ok(firstChoice.parsed)
  }
}

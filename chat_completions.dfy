/**
 * The shapes of the chat-completion responses the chat models read, and the filter
 * both chat models apply to a response stream: chunks without choices, and deltas
 * that are missing or have empty content, are skipped.
 */
module ChatCompletions {
  import opened Wrappers
  import opened Messages

  /** The arguments of one completion request; the model name is configuration and left out. */
  datatype ChatRequest = ChatRequest(messages: seq<OpenAIMessage>, temperature: real, maxCompletionTokens: Option<int>)

  const DefaultTemperature: real := 0.1

  datatype Delta = Delta(content: Option<string>)

  datatype StreamChoice = StreamChoice(delta: Option<Delta>)

  datatype ChatCompletionChunk = ChatCompletionChunk(choices: seq<StreamChoice>)

  datatype CompletionMessage = CompletionMessage(content: Option<string>)

  datatype Choice = Choice(message: CompletionMessage)

  datatype ChatCompletion = ChatCompletion(choices: seq<Choice>)

  /** The text a stream chunk contributes: its first choice's delta content, when present and non-empty. */
  function DeltaText(chunk: ChatCompletionChunk): (r: Option<string>)
    ensures r.Some? ==> r.value != ""
    ensures r.Some? <==> (|chunk.choices| > 0 && chunk.choices[0].delta.Some?
                          && chunk.choices[0].delta.value.content.Some? && chunk.choices[0].delta.value.content.value != "")
  {
    if |chunk.choices| == 0 then None
    else match chunk.choices[0].delta
      case None => None
      case Some(delta) => if delta.content.None? || delta.content.value == "" then None else delta.content
  }

  /** The texts of a stream, in stream order, with skipped chunks left out. */
  function StreamedTexts(stream: seq<ChatCompletionChunk>): seq<string> {
    if stream == [] then []
    else (match DeltaText(stream[0]) case Some(t) => [t] case None => []) + StreamedTexts(stream[1..])
  }

  /** The stream filter keeps stream order: it distributes over concatenation of streams. */
  lemma {:induction false} StreamedTextsConcat(a: seq<ChatCompletionChunk>, b: seq<ChatCompletionChunk>)
    ensures StreamedTexts(a + b) == StreamedTexts(a) + StreamedTexts(b)
  {
    if a == [] {
      assert a + b == b;
    } else {
      assert (a + b)[1..] == a[1..] + b;
      StreamedTextsConcat(a[1..], b);
    }
  }

  /** At most one text per chunk, none of them empty. */
  lemma {:induction false} StreamedTextsBounds(stream: seq<ChatCompletionChunk>)
    ensures |StreamedTexts(stream)| <= |stream|
    ensures forall i :: 0 <= i < |StreamedTexts(stream)| ==> StreamedTexts(stream)[i] != ""
  {
    if stream != [] {
      StreamedTextsBounds(stream[1..]);
    }
  }

  /** One assistant message with the given text, as the generators yield. */
  function Assistant(text: string): Message {
    AssistantMessage(Text(text), None)
  }

  /** The loop of `astream`: one assistant message per kept delta, in stream order. */
  method FilterDeltas(stream: seq<ChatCompletionChunk>) returns (out: seq<Message>)
    ensures |out| == |StreamedTexts(stream)|
    ensures forall i :: 0 <= i < |out| ==> out[i] == Assistant(StreamedTexts(stream)[i])
  {
    out := [];
    var i := 0;
    while i < |stream|
      invariant 0 <= i <= |stream|
      invariant |out| == |StreamedTexts(stream[..i])|
      invariant forall k :: 0 <= k < |out| ==> out[k] == Assistant(StreamedTexts(stream[..i])[k])
    {
      assert stream[..i + 1] == stream[..i] + [stream[i]];
      StreamedTextsConcat(stream[..i], [stream[i]]);
      assert StreamedTexts([stream[i]]) == (match DeltaText(stream[i]) case Some(t) => [t] case None => []) + StreamedTexts([]);
      var response := stream[i];
      i := i + 1;
      if |response.choices| == 0 {
        continue;
      }
      var delta := response.choices[0].delta;
      if delta.None? || delta.value.content.None? || delta.value.content.value == "" {
        continue;
      }
      out := out + [Assistant(delta.value.content.value)];
    }
    assert stream[..i] == stream;
  }

  /** The `achat` tail: the first choice's content, `None` read as `""`; no choice at all is an error. */
  function ChatResult(response: ChatCompletion): (r: Result<Message>)
    ensures |response.choices| == 0 <==> r == Err(ValueError("No response from OpenAI"))
    ensures |response.choices| > 0 ==> (r.Ok? && r.value.AssistantMessage? && r.value.toolCalls.None?
                                        && r.value.content == Text(response.choices[0].message.content.GetOr("")))
  {
    if |response.choices| == 0 then Err(ValueError("No response from OpenAI"))
    else Ok(Assistant(response.choices[0].message.content.GetOr("")))
  }
}

/**
 * Chat messages: roles, text or multi-part content, the conversion into the
 * dictionaries the OpenAI client takes, and the assembly of a conversation as
 * system message, history, user message. Assistant messages also carry the optional
 * tool-call list that the graph nodes read.
 */
module Messages {
  import opened Wrappers
  import Strings

  datatype Role = SystemRole | UserRole | AssistantRole {
    /** `role.name.lower()`. */
    function Name(): string {
      match this
      case SystemRole => "system"
      case UserRole => "user"
      case AssistantRole => "assistant"
    }
  }

  datatype Detail = Low | Medium | High {
    function Value(): string {
      match this
      case Low => "low"
      case Medium => "medium"
      case High => "high"
    }
  }

  /** An image reference; the url is already the base64 data url the validator builds from a path. */
  datatype ImageURL = ImageURL(url: string, detail: Detail)

  datatype ContentPart = ImageContent(imageUrl: ImageURL) | TextContent(text: string)

  /** Message content: plain text, or a list of parts (which validation requires to be non-empty). */
  datatype Content = Text(s: string) | Parts(parts: seq<ContentPart>)

  datatype FunctionCall = FunctionCall(name: string, arguments: string)

  datatype ToolCall = ToolCall(id: string, func: Option<FunctionCall>)

  datatype Message =
    | SystemMessage(content: Content)
    | UserMessage(content: Content)
    | AssistantMessage(content: Content, toolCalls: Option<seq<Option<ToolCall>>>)
  {
    function Role(): Role {
      match this
      case SystemMessage(_) => SystemRole
      case UserMessage(_) => UserRole
      case AssistantMessage(_, _) => AssistantRole
    }
  }

  type UserMsg = m: Message | m.UserMessage? witness UserMessage(Text(""))
  type SystemMsg = m: Message | m.SystemMessage? witness SystemMessage(Text(""))
  /** What a history may hold: user and assistant messages. */
  type HistoryMsg = m: Message | m.UserMessage? || m.AssistantMessage? witness UserMessage(Text(""))

  /** What `model_dump()` produces: strings and string-keyed dictionaries, keys in field order. */
  datatype Dump = DStr(s: string) | DDict(entries: seq<(string, Dump)>)

  function DumpPart(p: ContentPart): Dump {
    match p
    case TextContent(t) => DDict([("type", DStr("text")), ("text", DStr(t))])
    case ImageContent(img) =>
      DDict([("type", DStr("image_url")),
             ("image_url", DDict([("url", DStr(img.url)), ("detail", DStr(img.detail.Value()))]))])
  }

  datatype OpenAIContent = StrContent(s: string) | PartList(parts: seq<Dump>)

  /** The `{"role": ..., "content": ...}` dictionary. */
  datatype OpenAIMessage = OpenAIMessage(role: string, content: OpenAIContent)

  /** `to_openai_message`: the lower-cased role, and the content as is or as one dump per part. */
  function ToOpenAI(m: Message): (r: OpenAIMessage)
    ensures r.role == m.Role().Name()
    ensures m.content.Text? ==> r.content == StrContent(m.content.s)
    ensures m.content.Parts? ==> r.content.PartList?
  {
    OpenAIMessage(m.Role().Name(), DumpContent(m.content))
  }

  /** The content as is, or one dump per part. */
  function DumpContent(c: Content): OpenAIContent {
    match c
    case Text(s) => StrContent(s)
    case Parts(ps) => PartList(seq(|ps|, i requires 0 <= i < |ps| => DumpPart(ps[i])))
  }

  /** List content becomes one dump per part, in order. */
  lemma ToOpenAIParts(m: Message)
    requires m.content.Parts?
    ensures |ToOpenAI(m).content.parts| == |m.content.parts|
    ensures forall i :: 0 <= i < |m.content.parts| ==> ToOpenAI(m).content.parts[i] == DumpPart(m.content.parts[i])
  {
  }

  // ---------------------------------------------------------------------------
  // Reading a dumped message back: the conversion loses nothing but tool calls
  // ---------------------------------------------------------------------------

  function ParseDetail(s: string): Option<Detail> {
    if s == "low" then Some(Low) else if s == "medium" then Some(Medium) else if s == "high" then Some(High) else None
  }

  function ParsePart(d: Dump): Option<ContentPart> {
    if d.DStr? || |d.entries| != 2 then None
    else if d.entries[0] == ("type", DStr("text")) && d.entries[1].0 == "text" && d.entries[1].1.DStr? then
      Some(TextContent(d.entries[1].1.s))
    else if d.entries[0] == ("type", DStr("image_url")) && d.entries[1].0 == "image_url" then
      var img := d.entries[1].1;
      if img.DDict? && |img.entries| == 2 && img.entries[0].0 == "url" && img.entries[0].1.DStr?
         && img.entries[1].0 == "detail" && img.entries[1].1.DStr? then
        match ParseDetail(img.entries[1].1.s)
        case Some(detail) => Some(ImageContent(ImageURL(img.entries[0].1.s, detail)))
        case None => None
      else None
    else None
  }

  function ParseParts(ds: seq<Dump>): Option<seq<ContentPart>> {
    if ds == [] then Some([])
    else
      match (ParsePart(ds[0]), ParseParts(ds[1..]))
      case (Some(p), Some(rest)) => Some([p] + rest)
      case _ => None
  }

  /** The message an OpenAI dictionary describes, with no tool calls. */
  function FromOpenAI(o: OpenAIMessage): Option<Message> {
    var content := match o.content
      case StrContent(s) => Some(Text(s))
      case PartList(ds) => (match ParseParts(ds) case Some(ps) => Some(Parts(ps)) case None => None);
    match content
    case None => None
    case Some(c) =>
      if o.role == "system" then Some(SystemMessage(c))
      else if o.role == "user" then Some(UserMessage(c))
      else if o.role == "assistant" then Some(AssistantMessage(c, None))
      else None
  }

  /** A dumped part reads back as itself. */
  lemma ParsePartOfDump(p: ContentPart)
    ensures ParsePart(DumpPart(p)) == Some(p)
  {
    match p
    case TextContent(_) =>
    case ImageContent(img) =>
      assert ParseDetail(img.detail.Value()) == Some(img.detail);
  }

  /** A list of dumped parts reads back as the parts. */
  lemma {:induction false} ParsePartsOfDumps(ps: seq<ContentPart>, ds: seq<Dump>)
    requires |ds| == |ps|
    requires forall i :: 0 <= i < |ps| ==> ds[i] == DumpPart(ps[i])
    ensures ParseParts(ds) == Some(ps)
    decreases |ps|
  {
    if ps != [] {
      ParsePartOfDump(ps[0]);
      ParsePartsOfDumps(ps[1..], ds[1..]);
      assert ps == [ps[0]] + ps[1..];
    }
  }

  /** `to_openai_message` loses no information: the role and every part can be read back. */
  lemma OpenAIRoundTrip(m: Message)
    requires !m.AssistantMessage? || m.toolCalls.None?
    ensures FromOpenAI(ToOpenAI(m)) == Some(m)
  {
    if m.content.Parts? {
      ToOpenAIParts(m);
      ParsePartsOfDumps(m.content.parts, ToOpenAI(m).content.parts);
    }
  }

  // ---------------------------------------------------------------------------
  // Messages
  // ---------------------------------------------------------------------------

  /**
   * `Messages.from_conversation`: the history (None counts as empty), the user message
   * after it and the system message before it, each only when given. A message model is
   * always truthy, so "given" means "not None".
   */
  /** The error `from_conversation` raises when neither message is given. */
  const NoMessage: string := "Either message or system_message must be provided."

  function FromConversation(message: Option<UserMsg>, systemMessage: Option<SystemMsg>,
                            history: Option<seq<HistoryMsg>>): (r: Result<seq<Message>>)
    ensures message.None? && systemMessage.None? <==> r == Err(ValueError(NoMessage))
  {
    if message.None? && systemMessage.None? then Err(ValueError(NoMessage))
    else
      var messages: seq<Message> := history.GetOr([]);
      var messages := if message.Some? then messages + [message.value] else messages;
      var messages := if systemMessage.Some? then [systemMessage.value] + messages else messages;
      Ok(messages)
  }

  /**
   * A successful assembly has the system message first, the history next in its own
   * order, the user message last, and no other message.
   */
  lemma ConversationOrder(message: Option<UserMsg>, systemMessage: Option<SystemMsg>, history: Option<seq<HistoryMsg>>)
    requires message.Some? || systemMessage.Some?
    ensures var r := FromConversation(message, systemMessage, history);
      var h: seq<Message> := history.GetOr([]);
      var s := if systemMessage.Some? then 1 else 0;
      && r.Ok?
      && |r.value| == s + |h| + (if message.Some? then 1 else 0)
      && (systemMessage.Some? ==> r.value[0] == systemMessage.value)
      && r.value[s..s + |h|] == h
      && (message.Some? ==> r.value[|r.value| - 1] == message.value)
      && (forall i :: 0 <= i < |r.value| ==> (r.value[i].SystemMessage? <==> systemMessage.Some? && i == 0))
  {
  }

  /** `as_openai_list`: every message converted, in order. */
  function AsOpenAIList(messages: seq<Message>): (r: seq<OpenAIMessage>)
    ensures |r| == |messages|
    ensures forall i :: 0 <= i < |messages| ==> r[i] == ToOpenAI(messages[i])
  {
    seq(|messages|, i requires 0 <= i < |messages| => ToOpenAI(messages[i]))
  }

  /** Rendering list content as text: the texts of its parts, concatenated (images contribute nothing). */
  function ContentText(c: Content): string {
    match c
    case Text(s) => s
    case Parts(ps) => PartsText(ps)
  }

  function PartsText(ps: seq<ContentPart>): string {
    if ps == [] then "" else (if ps[0].TextContent? then ps[0].text else "") + PartsText(ps[1..])
  }
}

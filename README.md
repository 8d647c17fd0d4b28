# agent-research core, modelled in Dafny

This project models the deterministic logic of the agent-research repository: the code
that sits around the LLM clients and the graph runtime.

- **Retrieval.** The `ScoredChunks` container keeps its list in `root`. `sort` is stable
  and descending by default, `limit` is a Python slice, `extend` appends other
  containers, and `context` numbers the distinct texts. Three producers build on it:
  the Tavily result conversion, the BM25S text normalisation and index bookkeeping,
  and the hybrid search that concatenates semantic and web results.
- **Small data structures.** The batch iterator, and the copy-on-write ticket list of
  the booking assistant.
- **Chat messages.** The conversion of a message to the OpenAI dictionary. The
  system/history/user assembly is written three times in the source (the chat model,
  its second implementation, the structured-output programs). The filter that drops
  empty stream deltas, and the refusal of a reply with no choice, are written twice
  (the two chat implementations). The structured-output programs index the first
  choice directly, so for them a reply with no choice is an `IndexError`.
- **Graph nodes as values.**
  - A node is a function or method from its state, the user's answer to an interrupt
    (a parameter) and the streamed inputs. It returns the command, the state update
    and the events it writes.
  - This covers the ReAct tool dispatch, the expert dialog (conversation rendering,
    the ask/answer guard, answering, summarising), the research plan review and
    section gathering, the booking coordinator and operation nodes, and the story
    lesson.
  - Each graph's static wiring is a `Topology` value.
- **The booking assistant's stream translation.** Client events are forwarded, and an
  interrupt-status event is emitted only when the status changes.
- **Parsers and ingestion.** The call and chat transcript parsers over a file's lines,
  and the chunking of a parsed YAML rule book.

LLMs, embedders, the vector store, the web client, the BM25 library, the token splitter,
prompt templates, `json.loads` and identifier generation are collaborators. They are
function parameters, so every property holds whatever they return.

## Model

| member | source | states |
|---|---|---|
| Document.SortByScore | agent/models/document.py:58-60 | the sorted list has the input's length |
| Document.SortPermutes | agent/models/document.py:58-60 | the sorted list is a permutation of the input |
| Document.Insert | agent/models/document.py:58-60 | inserting one chunk lengthens the list by one |
| Document.InsertPermutes | agent/models/document.py:58-60 | inserting one chunk adds it and loses nothing |
| Document.SortIsSorted | agent/models/document.py:58-60 | after sorting, scores are non-increasing (reverse) or non-decreasing (not reverse) |
| Document.InsertSorted | agent/models/document.py:58-60 | inserting into a sorted list keeps it sorted |
| Document.SortIsStable | agent/models/document.py:58-60 | chunks that share a score keep their input order |
| Document.InsertWithScore | agent/models/document.py:58-60 | the inserted chunk comes before every chunk of its own score |
| Document.StableSortIsUnique | agent/models/document.py:58-60 | any sorted, stable reordering of the same chunks equals the model of `sorted`, so it is Python's sort |
| Document.SliceTo | agent/models/document.py:62-64 | `root[:k]` is a prefix of length min(k, n) for k >= 0, and max(0, n + k) for negative k |
| Document.SliceToTwice | agent/models/document.py:62-64 | limiting twice with the same k >= 0 equals limiting once; a negative k keeps shrinking |
| Document.BlocksNumbered | agent/models/document.py:71-77 | block i is numbered idx + i and holds the i-th unseen distinct text |
| Document.DistinctProperties | agent/models/document.py:72-76 | the rendered texts have no repeats, and are exactly the texts not yet seen |
| Document.DistinctInFirstOccurrenceOrder | agent/models/document.py:72-76 | the distinct texts come in the order of their first occurrences |
| Document.ContextBlocks | agent/models/document.py:66-78 | one `Reference [i]` block per distinct text, numbered 1..d with no gap, joined by a blank line; an empty list renders as "" |
| Document.ExtendAppendsAll | agent/models/document.py:80-83 | when the receiver is not among `others`, their chunks are appended in order, and the length is the sum |
| Document.ExtendKeepsPrefix | agent/models/document.py:80-83 | the existing chunks stay in front, unchanged, even when the receiver is among `others` |
| Document.ScoredChunks.constructor | agent/models/document.py:54 | the container holds exactly the given list |
| Document.ScoredChunks.Len | agent/models/document.py:55-56 | `__len__` is the length of `root` |
| Document.ScoredChunks.Sort | agent/models/document.py:58-60 | `root` becomes the stable score sort of the old `root`; the receiver is returned |
| Document.ScoredChunks.Limit | agent/models/document.py:62-64 | `root` becomes the slice of the old `root`; the receiver is returned |
| Document.ScoredChunks.Context | agent/models/document.py:66-78 | the loop with `traveled` and `idx` produces the rendering that ContextBlocks characterises |
| Document.ScoredChunks.Extend | agent/models/document.py:80-83 | `root` is extended by each list in turn, the receiver's own list when it appears in `others`; the receiver is returned |
| Batched.Iter | agent/batched.py:8-19 | the batches concatenate to the input, and none is empty; no input gives no batches; for size >= 1 every batch but the last has exactly that size, and the count is ceil(n / size); for size <= 0 a non-empty input is one batch |
| HybridSearch.SemanticSearch | agent/tools/hybrid/core.py:24-38 | an empty embedding list is a ValueError; otherwise the store's result is returned unchanged |
| HybridSearch.GatheredFlatten | agent/tools/hybrid/core.py:43-57 | the gathered chunks are the semantic ones followed by the web ones |
| HybridSearch.ASearch | agent/tools/hybrid/core.py:40-57 | a fresh container holding the semantic results followed by the web results, with nothing deduplicated, re-sorted or cut; only semantic results when websearch is off; the first failing task's error otherwise |
| Tavily.Kept | agent/searches/impl/tavily.py:53-55 | the kept results have raw content and come from the response |
| Tavily.KeptExactly | agent/searches/impl/tavily.py:53-55 | a result is kept exactly when its raw content is present |
| Tavily.Convert | agent/searches/impl/tavily.py:43-52 | one chunk per kept result, in order |
| Tavily.ToChunkFields | agent/searches/impl/tavily.py:43-52 | a chunk's text is the raw content; it carries website metadata with the result's url, and the result's score |
| Tavily.Search | agent/searches/impl/tavily.py:27-58 | an empty query, and only an empty query, raises ValueError; otherwise the output is a permutation of the converted results |
| Tavily.SearchResults | agent/searches/impl/tavily.py:43-58 | the output is sorted by descending score, stable, a permutation of the kept results, and no longer than the response |
| BM25S.CloseLength | agent/storages/search_engine/bm25s.py:47 | a match of the lazy `.*?\}\}` covers at least the two braces and stays within the text |
| BM25S.CloseLengthFirst | agent/storages/search_engine/bm25s.py:47 | a match ends at the first `}}`, with no newline before it |
| BM25S.CloseAt | agent/storages/search_engine/bm25s.py:47 | conversely, a first `}}` with no newline before it ends the match |
| BM25S.NewlineBlocksClose | agent/storages/search_engine/bm25s.py:47 | a newline before any `}}` makes the match fail |
| BM25S.PlaceholderLength | agent/storages/search_engine/bm25s.py:47 | a placeholder match starts with `{{` and ends at the first later `}}`, with no newline in between |
| BM25S.RemovePlaceholders | agent/storages/search_engine/bm25s.py:46-47 | replacing each placeholder with one space never lengthens the text |
| BM25S.NoPlaceholderUnchanged | agent/storages/search_engine/bm25s.py:46-47 | a text without `{{` is unchanged by placeholder removal |
| BM25S.PlaceholderFirst | agent/storages/search_engine/bm25s.py:47 | a leading placeholder becomes one space, and scanning resumes after it |
| BM25S.NewlineBlocksPlaceholder | agent/storages/search_engine/bm25s.py:47 | a newline before the closing braces prevents the match |
| BM25S.CollapseWhitespace | agent/storages/search_engine/bm25s.py:49 | collapsing each whitespace run to one space never lengthens the text |
| BM25S.CollapseNormalises | agent/storages/search_engine/bm25s.py:49 | after collapsing `\s+`, no two whitespace characters are adjacent, and the only whitespace is `' '` |
| BM25S.CollapseWithoutSpaces | agent/storages/search_engine/bm25s.py:49 | a text without whitespace is unchanged |
| BM25S.StripKeepsNormalised | agent/storages/search_engine/bm25s.py:49 | strip keeps a collapsed text collapsed |
| BM25S.PreprocessNormalises | agent/storages/search_engine/bm25s.py:42-51 | the output is trimmed, with single `' '` separators only |
| BM25S.LowercaseFirst | agent/storages/search_engine/bm25s.py:43-49 | lower-casing is the first step, and happens only when configured |
| BM25S.PreprocessWord | agent/storages/search_engine/bm25s.py:42-51 | a word without whitespace or `{{` passes through unchanged when lower-casing is off |
| BM25S.Pair | agent/storages/search_engine/bm25s.py:138-145 | zip pairing: the shorter length, with results and scores position by position |
| BM25S.SyncSearch | agent/storages/search_engine/bm25s.py:115-145 | not exactly one result set is a ValueError, then not exactly one score set is another; otherwise the sets are paired |
| BM25S.IndexTexts | agent/storages/search_engine/bm25s.py:100-102 | one indexed text per chunk |
| BM25S.IndexTextsAt | agent/storages/search_engine/bm25s.py:100-102 | the index is built from each chunk's processed text, in order |
| BM25S.IndexTextsStep | agent/storages/search_engine/bm25s.py:100-102 | one more chunk appends its processed text |
| BM25S.BM25SSearchEngine.constructor | agent/storages/search_engine/bm25s.py:55-85 | the chunk list starts empty; the corpus is the stored one, or empty when none loads; the default config applies |
| BM25S.BM25SSearchEngine.SyncAdd | agent/storages/search_engine/bm25s.py:87-106 | nothing happens for no chunks; otherwise the chunks are appended, and the index and corpus are rebuilt over all held chunks |
| BM25S.ReloadThenAddLosesStored | agent/storages/search_engine/bm25s.py:63-106 | as written, after loading a stored corpus, an add leaves the added chunks alone as the corpus, so every stored chunk not added again is lost |
| BM25S.BM25SSearchEngine.RestoreChunks | agent/storages/search_engine/bm25s.py:73-76 | corrected load: the chunk list is restored from the loaded corpus |
| BM25S.ReloadRestoreThenAddKeepsStored | agent/storages/search_engine/bm25s.py:87-106 | with the chunk list restored, adding keeps the stored chunks in front of the new ones in the corpus and the index |
| Booking.TicketInformation.Content | agent/models/booking.py:22-29 | the rendering starts with the transport label and ends with the booking reference |
| Booking.Without | agent/models/booking.py:57 | the filter removes every copy of the ticket and keeps every other one |
| Booking.WithoutConcat | agent/models/booking.py:57 | the filter keeps relative order |
| Booking.WithoutAbsent | agent/models/booking.py:57 | filtering out a ticket that is not there changes nothing |
| Booking.Tickets.Add | agent/models/booking.py:45-50 | a copy with the ticket appended and the others unchanged |
| Booking.Tickets.Update | agent/models/booking.py:52-63 | a copy without the original, with the updated ticket last |
| Booking.Tickets.Delete | agent/models/booking.py:65-72 | a copy without any ticket equal to the original, all others kept |
| Booking.AddContent | agent/models/booking.py:33-50 | after add the rendering gains one line, or is that line alone |
| Booking.UpdateIsDeleteThenAdd | agent/models/booking.py:52-72 | update is delete followed by add |
| Booking.AbsentOriginal | agent/models/booking.py:52-72 | updating an absent ticket appends; deleting it is a no-op |
| Booking.DeleteProperties | agent/models/booking.py:45-72 | delete is idempotent and undoes add |
| Messages.ToOpenAI | agent/models/messages.py:59-70 | role name lower-cased; text content as is, part content a list of dumps |
| Messages.ToOpenAIParts | agent/models/messages.py:59-70 | part content becomes one dump per part, in order |
| Messages.ParsePartOfDump | agent/models/messages.py:59-70 | a single dumped part, text or image, reads back as itself |
| Messages.ParsePartsOfDumps | agent/models/messages.py:59-70 | a list of dumped parts reads back as the parts |
| Messages.OpenAIRoundTrip | agent/models/messages.py:59-70 | the conversion loses nothing for a message without tool calls: it can be read back |
| Messages.FromConversation | agent/models/messages.py:97-119 | a ValueError exactly when neither the message nor the system message is given |
| Messages.ConversationOrder | agent/models/messages.py:103-119 | system message first, then the history in order, then the user message, and nothing else |
| Messages.AsOpenAIList | agent/models/messages.py:124-128 | every message converted, in order |
| ChatCompletions.DeltaText | agent/chats/openai.py:73-77 | a chunk contributes text exactly when it has a choice whose delta content is present and non-empty |
| ChatCompletions.StreamedTextsConcat | agent/chats/openai.py:66-78 | the delta filter keeps stream order |
| ChatCompletions.StreamedTextsBounds | agent/chats/openai.py:66-78 | at most one message per chunk, and no message is empty |
| ChatCompletions.FilterDeltas | agent/chats/openai.py:66-78 | one assistant message per kept delta, in stream order |
| ChatCompletions.ChatResult | agent/chats/openai.py:103-106 | no choice is a ValueError; otherwise an assistant message with the content, or "" |
| ChatsOpenAI.AggregateMessages | agent/chats/openai.py:24-32 | a ValueError exactly when neither the message nor the system message is given |
| ChatsOpenAI.AggregateConverts | agent/chats/openai.py:24-48 | the request is the conversation `from_conversation` assembles, converted message by message |
| ChatsOpenAI.AggregateOrder | agent/chats/openai.py:24-48 | system message first with role "system", then the history converted in order, then the user message with role "user", with the length to match |
| ChatsOpenAI.AStream | agent/chats/openai.py:50-78 | the assembly error, or one assistant message per non-empty delta |
| ChatsOpenAI.AChat | agent/chats/openai.py:80-106 | the assembly error, or no choice as a ValueError, or the first choice's content |
| ChatsImplOpenAI.SameRequestAsAggregate | agent/chats/impl/openai.py:32-36 | both chat models send the same request and fail alike |
| ChatsImplOpenAI.AStream | agent/chats/impl/openai.py:22-50 | the same stream filtering as the first chat model |
| ChatsImplOpenAI.AChat | agent/chats/impl/openai.py:52-78 | the same reply handling as the first chat model |
| ProgramsBase.AProcess | agent/programs/base.py:29-62 | the assembly error; no choice is an IndexError; a non-empty refusal is a ParsedResultError; otherwise the parsed value |
| MacroReport.SectionShape | agent/programs/macro_report.py:20-22 | heading and description, then exactly the markdown when researched, or nothing |
| MacroReport.UnresearchedIgnoresMarkdown | agent/programs/macro_report.py:22 | an unresearched section ignores its markdown |
| MacroReport.Outline.AsStr | agent/programs/macro_report.py:32-35 | the rendering starts with `#` and ends in a non-space character |
| MacroReport.EmptyOutline | agent/programs/macro_report.py:34-35 | no sections renders as `# title`, stripped |
| MacroReport.OutlineUnstripped | agent/programs/macro_report.py:34-35 | when the last section does not end in whitespace, the rendering is the header plus the sections joined by blank lines |
| MacroReport.JoinEndsWithLast | agent/programs/macro_report.py:34 | a join ends with its last part |
| React.ToolMap | agent/graphs/prebuilt/react.py:40-41 | the keys are exactly the tools' names |
| React.ToolMapLastWins | agent/graphs/prebuilt/react.py:40-41 | a name maps to the last tool that carries it |
| React.AgentNodeAsWritten | agent/graphs/prebuilt/react.py:47-56 | as written, the update is the whole history plus the response |
| React.AgentTurnDuplicatesHistory | agent/graphs/prebuilt/react.py:26-56 | with the list reducer, an agent turn on a non-empty history repeats that history |
| React.AgentNode | agent/graphs/prebuilt/react.py:47-56 | corrected: the update is the response alone |
| React.AgentTurnAppendsResponse | agent/graphs/prebuilt/react.py:26-56 | corrected: an agent turn appends exactly the response |
| React.Dispatched | agent/graphs/prebuilt/react.py:65-67 | only calls with a function are dispatched, no more than there are calls |
| React.DispatchedExactly | agent/graphs/prebuilt/react.py:65-67 | a call is dispatched exactly when it is present and has a function |
| React.DispatchedSnoc | agent/graphs/prebuilt/react.py:65-75 | dispatch keeps call order |
| React.SendFor | agent/graphs/prebuilt/react.py:68-75 | a human tool's name goes to human_tools, any other to tools, carrying one empty assistant message with just that call |
| React.DecideToolCalls | agent/graphs/prebuilt/react.py:58-79 | no messages, or a last message that is not the assistant's, ends; otherwise one send per dispatched call, in order; a None call is an AttributeError |
| React.ValidateToolCall | agent/graphs/prebuilt/react.py:81-101 | passes exactly when the last message is the assistant's and holds one present call, which it returns; an empty history is "Expected > 1 message" |
| React.RoutedCallValidates | agent/graphs/prebuilt/react.py:75-101 | every routed state passes the check, and yields its own call |
| React.RunTool | agent/graphs/prebuilt/react.py:103-143 | validation error; unknown tool-name error for either node; otherwise one tool response under the call's id |
| React.RoutedCallAnswered | agent/graphs/prebuilt/react.py:75-143 | a routed call to a known tool gets that tool's answer |
| React.ReactGraphWiring | agent/graphs/prebuilt/react.py:145-158 | agent routes to tools, human_tools or end; both tool nodes return to agent |
| Expert.ConversationTextFails | agent/graphs/impl/expert.py:44-54 | rendering fails, with "Invalid role in conversation", exactly when a system message occurs |
| Expert.QuestionAnswerLines | agent/graphs/impl/expert.py:47-51 | a question and its answer add their two lines, in order |
| Expert.ConversationContext | agent/graphs/impl/expert.py:44-54 | the loop computes the line-by-line rendering |
| Expert.Containers | agent/graphs/impl/expert.py:58 | one fresh container per result list |
| Expert.SummarizationContext | agent/graphs/impl/expert.py:56-58 | the context of all result lists concatenated and stably sorted by descending score |
| Expert.Continues | agent/graphs/impl/expert.py:152-161 | "yes" exactly when there are queries and fewer than max_questions pairs so far |
| Expert.ShouldContinue | agent/graphs/impl/expert.py:152-161 | no question or no queries ends; enough pairs ends; otherwise answer |
| Expert.AnswerRounds | agent/graphs/impl/expert.py:152-195 | the rounds left are bounded by max_questions minus the pairs so far |
| Expert.DialogTerminates | agent/graphs/impl/expert.py:152-161 | from a fresh dialog, at most max_questions answer rounds run |
| Expert.AnswerQuestion | agent/graphs/impl/expert.py:163-195 | no question is a ValueError; all searches succeeding gives Ok; message 2i is the i-th query and 2i+1 its rendered results |
| Expert.Summarize | agent/graphs/impl/expert.py:197-228 | no pieces is "No tokens to summarize"; otherwise one summarization of the first piece for the section |
| Expert.DialogGraphWiring | agent/graphs/impl/expert.py:230-262 | the entry, the edges, and the conditional routes of the dialog graph |
| Research.ResearchTasks | agent/graphs/workflows/research.py:57-68 | every send goes to the section expert with the topic and a researched section |
| Research.ResearchTasksAreResearched | agent/graphs/workflows/research.py:57-68 | exactly the researched sections, in order; none when no section is researched |
| Research.ReviewPlan | agent/graphs/workflows/research.py:46-82 | no outline is a ValueError; "y" in any case fans out; anything else returns to the planner with the feedback appended on a new line |
| Research.FirstWithId | agent/graphs/workflows/research.py:93-97 | the first section with that id, or none |
| Research.Apply | agent/graphs/workflows/research.py:99-105 | one summarization keeps the section count |
| Research.ApplyAll | agent/graphs/workflows/research.py:92-105 | applying all keeps the section count |
| Research.ApplyAllResult | agent/graphs/workflows/research.py:92-105 | the first section with an id holds the last summarization for it; all other sections are unchanged; ids are kept |
| Research.GatherSections | agent/graphs/workflows/research.py:85-110 | no outline is a ValueError; otherwise the sections after applying, and the rendered outline |
| Coordinator.RouteFor | agent/graphs/nodes/booking/coordinator.py:101-115 | faq goes to FAQ, booking to OPERATION, and any other name is an error |
| Coordinator.Decision | agent/graphs/nodes/booking/coordinator.py:97-115 | no decision exactly when no call is present with a function |
| Coordinator.DecisionIsFirst | agent/graphs/nodes/booking/coordinator.py:97-115 | the first routable call decides |
| Coordinator.ScanToolCalls | agent/graphs/nodes/booking/coordinator.py:97-115 | the inner loop returns exactly the decision of the first call with a function, or none |
| Coordinator.CoordinateFirstDecision | agent/graphs/nodes/booking/coordinator.py:96-120 | the first deciding message's route, or END; the chat events of the messages before it, in order |
| Coordinator.ChatOnlyStream | agent/graphs/nodes/booking/coordinator.py:117-120 | plain messages are all relayed, and the route is END |
| Coordinator.ChatEventsAll | agent/graphs/nodes/booking/coordinator.py:117-118 | one event per plain message |
| Coordinator.SchemasMatchRoutes | agent/graphs/nodes/booking/coordinator.py:30-56 | the schema names are the names the router switches on |
| Coordinator.Process | agent/graphs/nodes/booking/coordinator.py:69-120 | the nested loop, with its early returns, gives the route and the events of the specification |
| Operation.OperationNodeProcess | agent/graphs/nodes/booking/operation.py:28-47 | on success, always to OPERATION_FEEDBACK carrying the program's answer; the only errors are the program's IndexError or ParsedResultError |
| Operation.OperationFeedbackNodeProcess | agent/graphs/nodes/booking/operation.py:53-85 | no response ends silently; a follow-up interrupts and returns with the answer appended; otherwise at most one announcement, then END |
| Operation.QuestionRoundFeedsBack | agent/graphs/nodes/booking/operation.py:63-74 | the next prompt sees the earlier feedbacks plus the answer |
| BookingAssistant.GraphInputFor | agent/graphs/workflows/booking_assistant.py:121-130 | resume exactly when interrupted; otherwise a fresh state |
| BookingAssistant.Forwarded | agent/graphs/workflows/booking_assistant.py:140-151 | chat and chunk custom events are forwarded, others dropped; an interrupt update becomes one chat event |
| BookingAssistant.InterruptOrder | agent/graphs/workflows/booking_assistant.py:144-160 | the chat event precedes the status event |
| BookingAssistant.StatusesOfTranslate | agent/graphs/workflows/booking_assistant.py:153-160 | the status events emitted are the status changes |
| BookingAssistant.StatusTraceAlternates | agent/graphs/workflows/booking_assistant.py:153-160 | the changes alternate; the first differs from the initial flag; the last matches the last item |
| BookingAssistant.StatusesAlternate | agent/graphs/workflows/booking_assistant.py:153-160 | the emitted statuses alternate, starting with a change |
| BookingAssistant.HandleEvent | agent/graphs/workflows/booking_assistant.py:139-160 | one item's events and the new flag |
| BookingAssistant.StreamAsyncAnswer | agent/graphs/workflows/booking_assistant.py:132-160 | the loop's output is the translation; the final flag is the last item's status |
| BookingAssistant.BookingGraphWiring | agent/graphs/workflows/booking_assistant.py:84-97 | entry coordinator, three nodes, no edges, a checkpointer |
| ConversationParsers.SelectedBound | applications/conversation_eval/chat.py:50-66 | at most one stored text per line |
| ConversationParsers.SelectedPrefix | applications/conversation_eval/chat.py:85-103 | each role list follows line order |
| ConversationParsers.SelectedStep | applications/conversation_eval/chat.py:85-103 | one more line appends its stored text, if any, to the list of its role and leaves the other list as it was |
| ConversationParsers.CallLine | applications/conversation_eval/chat.py:51-66 | split at the first `": "`; Agent or Human ending; the stripped remainder |
| ConversationParsers.CallParserParse | applications/conversation_eval/chat.py:45-68 | both lists, from the per-line rule |
| ConversationParsers.FirstColon | applications/conversation_eval/chat.py:94-102 | the label's colon is the first one |
| ConversationParsers.ChatLine | applications/conversation_eval/chat.py:86-103 | Assistant: or User: prefix; the stripped text after the first `:` |
| ConversationParsers.ChatLineSplits | applications/conversation_eval/chat.py:86-103 | a labelled line always splits in two, and its text is the stripped part after the first colon |
| ConversationParsers.ChatParserParse | applications/conversation_eval/chat.py:80-105 | both lists, from the per-line rule |
| ConstantIngest.Str | applications/conversation_eval/indexing.py:31 | `str(value)`: a string is itself, a list or mapping renders bracketed |
| ConstantIngest.RuleConstants | applications/conversation_eval/indexing.py:23-25 | a list is its items; any other value is one constant |
| ConstantIngest.Ingested | applications/conversation_eval/indexing.py:21-43 | the chunk count is the sum of the rules' constant counts; the only error is the name validation |
| ConstantIngest.AddRule | applications/conversation_eval/indexing.py:22-41 | one rule adds one chunk per constant, or fails with the name validation error; an earlier error is kept |
| ConstantIngest.IngestedFails | applications/conversation_eval/indexing.py:22-41 | fails exactly when a rule with constants has a non-string name |
| ConstantIngest.IngestedPrefix | applications/conversation_eval/indexing.py:22-41 | the earlier rules' chunks come first |
| ConstantIngest.IngestedAt | applications/conversation_eval/indexing.py:22-41 | the j-th constant of rule i is the chunk at Count(rules[..i]) + j: its str text, the 1-based pageidx, the rule name as page path and the file name, in document metadata |
| ConstantIngest.StringNamesIngest | applications/conversation_eval/indexing.py:22-41 | string-named rules always ingest |
| ConstantIngest.Ingest | applications/conversation_eval/indexing.py:16-43 | a non-mapping document is an AttributeError; otherwise the loop computes the ingestion |
| StoryLesson.TopicLines | lessons/langgraph/demo.py:75-77 | line i is "- Topic [i+1]: t" |
| StoryLesson.OutlineTextShape | lessons/langgraph/demo.py:72-79 | no topics renders as ""; one topic is its line; each further topic adds a newline and its line |
| StoryLesson.OutlineContent | lessons/langgraph/demo.py:72-79 | the loop computes the joined topic lines |
| StoryLesson.ProgramOutline | lessons/langgraph/demo.py:181-189 | the outline program fails only with its own errors; otherwise its parsed outline, None when nothing was parsed |
| StoryLesson.PlannedOutline | lessons/langgraph/demo.py:139-159 | the program's errors pass through; a missing outline raises the `topics` AttributeError; otherwise the parsed outline |
| StoryLesson.SendTopics | lessons/langgraph/demo.py:166-177 | one send to write-story per topic, in order, and no update |
| StoryLesson.PlanOutlineWithoutFeedback | lessons/langgraph/demo.py:136-159 | every topic goes to write-story |
| StoryLesson.PlanOutline | lessons/langgraph/demo.py:162-206 | the program's errors pass through; with feedback, a missing outline raises the `content` AttributeError, otherwise an interrupt with the rendered outline, then "y" in any case sends and anything else re-plans with feedbacks=[answer]; without feedback, only the outline update, a missing outline included |
| StoryLesson.AcceptedOutlineSendsTopics | lessons/langgraph/demo.py:191-195 | an accepted outline sends the same topics as the variant without feedback |
| StoryLesson.RejectedOutlineFeedsBack | lessons/langgraph/demo.py:196-202 | a rejection returns to plan-outline, and the reducer appends the answer |
| StoryLesson.DisallowedFeedbackSendsNothing | lessons/langgraph/demo.py:203-206 | without feedback, no send and no interrupt, and a failure only when the program fails |
| StoryLesson.WriteStory | lessons/langgraph/demo.py:209-226 | one event per delta, and exactly one story that is the deltas concatenated in order |
| StoryLesson.GatherStoryShape | lessons/langgraph/demo.py:229-231 | no stories gives ""; one gives its content; each further story adds a blank line and its content |
| StoryLesson.StoryGraphWiring | lessons/langgraph/demo.py:247-259 | entry plan-outline, write-story to gather-stories, a checkpointer |
| StoryLesson.SendsReachWriter | lessons/langgraph/demo.py:166-177 | every send targets a node of the graph |

## Left out

- The graph runtime (scheduling, Send/Command dispatch, `interrupt`, checkpointing, reducers) is an external library. Nodes return values; an interrupt's answer is a parameter; the stream writer is a returned event list. Reducer application is modelled only where a property needs it.
- Concurrency: `asyncio.gather` is an in-order map where the first failing task decides the error; executors and thread pools are left out.
- Network, LLM, embedding, vector-store, Tavily and BM25 library calls are function parameters. Tokenisation, BM25 scoring, and saving or loading files are left out.
- File I/O: the parsers take the file's lines, and the ingestor takes the parsed YAML document and the file name. YAML floats and other scalar types are not modelled.
- Prompt templates are opaque rendering functions. Model names, API keys and configuration are left out.
- ConstantIngest.Ingest: the parsed mapping is a list of (key, value) entries, which may repeat a key; a mapping loaded by `yaml.safe_load` has distinct keys, so on an input with a repeated key the model makes chunks for entries the loaded dict would not hold.
- ConstantIngest.Str: Python's `repr` of a nested string escapes every non-printable character; the model escapes only the control characters below 0x20 and those from 0x7f to 0xa0, so other non-printable code points (U+00AD, U+2028 and the like) are rendered unescaped.
- BM25S.BM25SSearchEngine.constructor: the loaded index is stated as the current configuration's index of the stored corpus; the source loads the saved retriever as is, which may have been built with another configuration.
- Strings.Lower: the model of `str.lower` lower-cases only the ASCII and Latin-1 letters; other Unicode case mappings are not modelled.
- Expert.ConversationContext, Expert.Summarize: a message with list content is rendered through its text parts, not through Python's `str` of the list.
- Coordinator.Process: likewise, for the relayed chat content and the history rendering.
- Research.ReviewPlan: the source renders the interrupt payload from `outline.content`, an attribute the outline model does not define, so as written it raises `AttributeError` there whenever an outline exists. The model does not raise at that point and does not model the interrupt payload; only the answer (a parameter) decides the result. The check for an empty-string outline is read as "no outline".
- Research.GatherSections: the source sets the final markdown to `outline.content`, which as written raises `AttributeError` whenever an outline exists, because the outline model defines only `page_title`, `sections` and `as_str`. The model returns the outline's `as_str` rendering instead, and does not model that error.
- Research.GatherSections: the sections are updated as a returned value instead of in place inside the state.
- React.RunTool: JSON decoding, pydantic validation and `str` of the tool's answer are folded into the tool's `invoke` and `loads` parameters.
- Pydantic validation in general is not modelled beyond the error of ConstantIngest.Ingested.
- Operation.OperationFeedbackNodeProcess: the operation's `model_dump()` rendering is a parameter.
- BookingAssistant.Translate: an interrupt update always carries at least one interrupt value.
- The operation-feedback node exists, but the booking graph does not register it: its registration is commented out in the source.
- The FAQ node, the ReAct booking operation, the splitter implementation and the UIs are outside this model.
- StoryLesson.ApplyFeedbacks: only the `feedbacks` field of a feedback update is applied. Whether the runtime also writes the update's default-valued fields is library behaviour.
- ConversationParsers.ChatParserParse: the branch that logs a failed split is unreachable after a label match; FirstColon and ChatLineSplits prove this.
- Identifiers (`uuid4`) come from a supplied function of the chunk's position.

## Findings

| source | as written | input that shows it | evidently intended | confidence | as-written member | corrected member |
|---|---|---|---|---|---|---|
| agent/storages/search_engine/bm25s.py:63-106 | `load_index` restores the retriever's corpus but leaves `self.chunks` empty, so the next `sync_add` rebuilds and saves the index over the new chunks alone | a stored corpus [c1], then `sync_add([c2])` with c1 != c2: the saved corpus is [c2] | the stored chunks survive an add: the corpus becomes [c1, c2] | not executed | BM25S.ReloadThenAddLosesStored | BM25S.ReloadRestoreThenAddKeepsStored |
| agent/graphs/prebuilt/react.py:26-56 | the agent node returns `state.messages + [response]` into a field reduced by list concatenation | a history [m]: after one agent turn the history is [m, m, response] | the update is `[response]`, so the history becomes [m, response] | not executed | React.AgentTurnDuplicatesHistory | React.AgentTurnAppendsResponse |

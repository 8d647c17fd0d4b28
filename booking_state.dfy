/**
 * The values the booking assistant's nodes share: the node names, the state of the
 * booking graph, the operation program's answer, and the events streamed to the client.
 */
module BookingState {
  import opened Wrappers
  import opened Messages
  import opened Booking
  import opened Document

  /** The node names; the enumeration's automatic values are the lower-cased member names. */
  datatype Node = Coordinator | EndNode | Faq | Operation | OperationFeedback {
    function Value(): string {
      match this
      case Coordinator => "coordinator"
      case EndNode => "__end__"
      case Faq => "faq"
      case Operation => "operation"
      case OperationFeedback => "operation_feedback"
    }
  }

  /** The operation the booking program asks for. */
  datatype BookingOperation =
    | ReadOperation(tickets: seq<TicketInformation>)
    | CreateOperation(ticket: TicketInformation)
    | UpdateOperation(previousTicket: TicketInformation, newTicket: TicketInformation)
    | DeleteOperation(deleted: seq<TicketInformation>)
  {
    /** The `operator` field each variant fixes. */
    function Operator(): OperationType {
      match this
      case ReadOperation(_) => Read
      case CreateOperation(_) => Create
      case UpdateOperation(_, _) => Update
      case DeleteOperation(_) => Delete
    }
  }

  /** The booking program's answer: an operation to perform, a question to ask back, or both. */
  datatype BookingAIResponse = BookingAIResponse(request: Option<BookingOperation>, followupQuery: string)

  /** The state of the booking graph; `history` is reduced by list concatenation. */
  datatype State = State(
    query: UserMsg,
    history: seq<HistoryMsg>,
    feedbacks: Option<seq<string>>,
    bookingResponse: Option<BookingAIResponse>)

  /** The state updates the nodes return. */
  datatype StateUpdate =
    | FeedbacksUpdate(feedbacks: seq<string>)
    | BookingResponseUpdate(bookingResponse: Option<BookingAIResponse>)

  /** The events streamed to the client, discriminated by their `event` value. */
  datatype StreamData =
    | StreamChatData(data: Message)
    | StreamChunksData(chunks: seq<ScoredChunk>)
    | StreamInterruptData(isInterrupted: bool)
  {
    function Event(): string {
      match this
      case StreamChatData(_) => "chat"
      case StreamChunksData(_) => "chunks"
      case StreamInterruptData(_) => "interrupt"
    }
  }

  /** `StreamChatData.from_message`: a chat event carrying an assistant message with that text. */
  function ChatEvent(content: string): (e: StreamData)
    ensures e.StreamChatData? && e.Event() == "chat" && e.data == AssistantMessage(Text(content), None)
  {
    StreamChatData(AssistantMessage(Text(content), None))
  }
}

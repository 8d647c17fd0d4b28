/**
 * The booking operation nodes: the operation node asks the booking program what to do
 * for the query, the user's tickets and the feedback gathered so far; the feedback node
 * then asks the user the program's follow-up question, or announces the operation, or
 * ends. The prompt template, the program's parsing client and the rendering of an
 * operation's fields are parameters; the user's answer to a question is supplied.
 */
module Operation {
  import opened Wrappers
  import opened Messages
  import opened Graph
  import opened Booking
  import opened BookingState
  import ProgramsBase

  /** The operation node's collaborators. */
  datatype OperationBackends = OperationBackends(
    render: (string, Content, seq<string>) -> string,
    parse: seq<OpenAIMessage> -> ProgramsBase.ParsedCompletion<BookingAIResponse>)

  /** The program's answer for a state: the prompt with `None` feedbacks rendered as none. */
  function ProgramAnswer(state: State, tickets: Tickets, b: OperationBackends): Result<Option<BookingAIResponse>> {
    var promptContent := b.render(tickets.Content(), state.query.content, state.feedbacks.GetOr([]));
    ProgramsBase.AProcess(Some(UserMessage(Text(promptContent))), None, None, b.parse)
  }

  /**
   * `OperationNode.process`: always on to the feedback node, with the program's answer
   * stored as the booking response. The only failures are the program's own: no choice,
   * or a refusal.
   */
  function OperationNodeProcess(state: State, tickets: Tickets, b: OperationBackends)
    : (r: Result<Command<StateUpdate, State>>)
    ensures r.Ok? <==> ProgramAnswer(state, tickets, b).Ok?
    ensures r.Ok? ==> r.value == Command(GotoNode(OperationFeedback.Value()), Some(BookingResponseUpdate(ProgramAnswer(state, tickets, b).value)))
    ensures r.Err? ==> r.error.IndexError? || r.error.ParsedResultError?
  {
    var promptContent := b.render(tickets.Content(), state.query.content, state.feedbacks.GetOr([]));
    var response :- ProgramsBase.AProcess(Some(UserMessage(Text(promptContent))), None, None, b.parse);
    Ok(Command(GotoNode(OperationFeedback.Value()), Some(BookingResponseUpdate(response))))
  }

  /** What the feedback node returns: its command, the question it interrupts with, and the events it writes. */
  datatype FeedbackOutcome = FeedbackOutcome(command: Command<StateUpdate, State>, interrupt: Option<string>, events: seq<StreamData>)

  /** The announcement written before an operation is performed. */
  function Announcement(request: BookingOperation, dump: BookingOperation -> string): string {
    "I will perform: " + request.Operator().Value() + " on data: " + dump(request) + ". Thanks"
  }

  /**
   * `OperationFeedbackNode.process`, with `resume` the user's answer to the interrupt:
   * no response ends silently; a follow-up question interrupts and goes back to the
   * operation node with the answer appended to the feedbacks; otherwise an operation,
   * if any, is announced once and the graph ends.
   */
  function OperationFeedbackNodeProcess(state: State, resume: string, dump: BookingOperation -> string): (r: FeedbackOutcome)
    ensures r.interrupt.Some? <==> r.command.goto == GotoNode(Operation.Value())
    ensures r.interrupt.None? ==> r.command == Command(GotoNode(EndNode.Value()), None)
    ensures |r.events| <= 1 && (r.interrupt.Some? ==> r.events == [])
    ensures state.bookingResponse.None? ==> r.interrupt.None? && r.events == []
    ensures state.bookingResponse.Some? && state.bookingResponse.value.followupQuery != "" ==>
      && r.interrupt == Some(state.bookingResponse.value.followupQuery)
      && r.command.update == Some(FeedbacksUpdate(state.feedbacks.GetOr([]) + [resume]))
    ensures state.bookingResponse.Some? && state.bookingResponse.value.followupQuery == "" ==>
      && r.interrupt.None?
      && r.events == (match state.bookingResponse.value.request
                      case Some(request) => [ChatEvent(Announcement(request, dump))]
                      case None => [])
  {
    var end := Command(GotoNode(EndNode.Value()), None);
    match state.bookingResponse
    case None => FeedbackOutcome(end, None, [])
    case Some(bookingResponse) =>
      if bookingResponse.followupQuery != "" then
        var feedbacks := state.feedbacks.GetOr([]) + [resume];
        FeedbackOutcome(Command(GotoNode(Operation.Value()), Some(FeedbacksUpdate(feedbacks))), Some(bookingResponse.followupQuery), [])
      else if bookingResponse.request.Some? then
        FeedbackOutcome(end, None, [ChatEvent(Announcement(bookingResponse.request.value, dump))])
      else
        FeedbackOutcome(end, None, [])
  }

  /** The state a node's update produces; neither updated field has a reducer. */
  function ApplyUpdate(state: State, update: StateUpdate): State {
    match update
    case FeedbacksUpdate(f) => state.(feedbacks := Some(f))
    case BookingResponseUpdate(b) => state.(bookingResponse := b)
  }

  /**
   * One question round: after the feedback node's interrupt, the operation node's next
   * prompt sees every earlier feedback followed by the user's answer.
   */
  lemma QuestionRoundFeedsBack(state: State, resume: string, dump: BookingOperation -> string)
    requires state.bookingResponse.Some? && state.bookingResponse.value.followupQuery != ""
    ensures var out := OperationFeedbackNodeProcess(state, resume, dump);
      && out.command.update.Some?
      && ApplyUpdate(state, out.command.update.value).feedbacks.GetOr([]) == state.feedbacks.GetOr([]) + [resume]
  {
  }
}

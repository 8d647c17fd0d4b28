/**
 * The booking assistant's entry point: the graph input for a query, and the
 * translation of the graph's event stream into the events sent to the client, which
 * also reports every change of the interrupted status. The graph runtime producing the
 * events is not modelled; its events are the input.
 */
module BookingAssistant {
  import opened Wrappers
  import opened Messages
  import opened Graph
  import opened BookingState
  import Seqs

  // ---------------------------------------------------------------------------
  // Graph input
  // ---------------------------------------------------------------------------

  /** A resume command carrying the query, or a fresh state. */
  datatype GraphInput = Resume(resume: string) | Fresh(state: State)

  /** When interrupted the query resumes the graph; otherwise a new state starts it. */
  function GraphInputFor(query: string, history: Option<seq<HistoryMsg>>, isInterrupted: bool): (r: GraphInput)
    ensures isInterrupted <==> r == Resume(query)
    ensures !isInterrupted ==> r == Fresh(State(UserMessage(Text(query)), history.GetOr([]), None, None))
  {
    if isInterrupted then Resume(query)
    else Fresh(State(UserMessage(Text(query)), history.GetOr([]), None, None))
  }

  // ---------------------------------------------------------------------------
  // Event translation
  // ---------------------------------------------------------------------------

  /** What a node wrote to the custom stream: a stream event, or anything else. */
  datatype CustomEvent = Written(data: StreamData) | OtherCustom(text: string)

  /** The runtime reports at least one interrupt value when it reports an interrupt. */
  type Interrupts = s: seq<string> | |s| > 0 witness [""]

  /**
   * One `(mode, event)` item of the graph's stream: a custom event, or a state update,
   * which either carries the `"__interrupt__"` key with its values or does not.
   */
  datatype GraphEvent = Custom(event: CustomEvent) | Updates(interrupts: Option<Interrupts>)

  /** The event's interrupt status: it comes from the updates stream and holds the interrupt key. */
  predicate Interrupted(e: GraphEvent) {
    e.Updates? && e.interrupts.Some?
  }

  /** What an event forwards: chat and chunk events written by nodes, and the first interrupt value as a chat event. */
  function Forwarded(e: GraphEvent): (r: seq<StreamData>)
    ensures |r| <= 1
    ensures e.Custom? ==> (r != [] <==> e.event.Written? && !e.event.data.StreamInterruptData?)
    ensures e.Custom? && r != [] ==> r == [e.event.data]
    ensures e.Updates? ==> r == (if Interrupted(e) then [ChatEvent(e.interrupts.value[0])] else [])
  {
    match e
    case Custom(c) =>
      if c.Written? && (c.data.StreamChatData? || c.data.StreamChunksData?) then [c.data] else []
    case Updates(interrupts) =>
      if interrupts.Some? then [ChatEvent(interrupts.value[0])] else []
  }

  /** The status event an item adds: one, with its status, exactly when that status differs from the tracked flag. */
  function StatusChange(e: GraphEvent, isInterrupted: bool): seq<StreamData> {
    if Interrupted(e) != isInterrupted then [StreamInterruptData(Interrupted(e))] else []
  }

  /** The client events for a stream of items, starting from the tracked flag. */
  function Translate(events: seq<GraphEvent>, isInterrupted: bool): seq<StreamData>
    decreases |events|
  {
    if events == [] then []
    else Forwarded(events[0]) + StatusChange(events[0], isInterrupted) + Translate(events[1..], Interrupted(events[0]))
  }

  /** For an interrupt update arriving while not interrupted, the chat event comes before the status event. */
  lemma InterruptOrder(e: GraphEvent, rest: seq<GraphEvent>)
    requires Interrupted(e)
    ensures Translate([e] + rest, false)[..2] == [ChatEvent(e.interrupts.value[0]), StreamInterruptData(true)]
  {
    assert ([e] + rest)[1..] == rest;
  }

  /** The statuses of the status events, in order. */
  function Statuses(out: seq<StreamData>): seq<bool> {
    if out == [] then []
    else (if out[0].StreamInterruptData? then [out[0].isInterrupted] else []) + Statuses(out[1..])
  }

  lemma {:induction false} StatusesConcat(a: seq<StreamData>, b: seq<StreamData>)
    ensures Statuses(a + b) == Statuses(a) + Statuses(b)
  {
    if a == [] {
      assert a + b == b;
    } else {
      var ab := a + b;
      assert ab[0] == a[0];
      assert ab[1..] == a[1..] + b;
      var head := if a[0].StreamInterruptData? then [a[0].isInterrupted] else [];
      assert Statuses(ab) == head + Statuses(a[1..] + b);
      assert Statuses(a) == head + Statuses(a[1..]);
      StatusesConcat(a[1..], b);
    }
  }

  /** Consecutive booleans differ. */
  predicate Alternating(s: seq<bool>) {
    forall k :: 0 <= k < |s| - 1 ==> s[k] != s[k + 1]
  }

  /** The statuses reported for a stream of items: each item's status when it differs from the previous one. */
  function StatusTrace(events: seq<GraphEvent>, isInterrupted: bool): seq<bool>
    decreases |events|
  {
    if events == [] then []
    else (if Interrupted(events[0]) != isInterrupted then [Interrupted(events[0])] else [])
         + StatusTrace(events[1..], Interrupted(events[0]))
  }

  /** The status events of the translation are exactly the status trace. */
  lemma {:induction false} StatusesOfTranslate(events: seq<GraphEvent>, isInterrupted: bool)
    ensures Statuses(Translate(events, isInterrupted)) == StatusTrace(events, isInterrupted)
    decreases |events|
  {
    if events != [] {
      var e := events[0];
      StatusesOfTranslate(events[1..], Interrupted(e));
      StatusesConcat(Forwarded(e) + StatusChange(e, isInterrupted), Translate(events[1..], Interrupted(e)));
      StatusesConcat(Forwarded(e), StatusChange(e, isInterrupted));
      if Forwarded(e) != [] {
        assert Forwarded(e)[1..] == [];
      }
    }
  }

  /**
   * The reported statuses alternate, the first differs from the flag the stream started
   * with, and the last one is the status of the stream's last item.
   */
  lemma {:induction false} StatusTraceAlternates(events: seq<GraphEvent>, isInterrupted: bool)
    ensures var st := StatusTrace(events, isInterrupted);
      && Alternating(st)
      && (st != [] ==> st[0] != isInterrupted)
      && (events != [] && st != [] ==> st[|st| - 1] == Interrupted(events[|events| - 1]))
      && (events != [] && st == [] ==> Interrupted(events[|events| - 1]) == isInterrupted)
    decreases |events|
  {
    if events != [] {
      var rest := events[1..];
      var b := Interrupted(events[0]);
      var tail := StatusTrace(rest, b);
      StatusTraceAlternates(rest, b);
      if rest != [] {
        assert rest[|rest| - 1] == events[|events| - 1];
      } else {
        assert events[|events| - 1] == events[0];
        assert tail == [];
      }
      if b == isInterrupted {
        assert StatusTrace(events, isInterrupted) == tail;
      } else {
        assert StatusTrace(events, isInterrupted) == [b] + tail;
        ConsAlternating(b, tail);
      }
    }
  }

  lemma ConsAlternating(b: bool, tail: seq<bool>)
    requires Alternating(tail) && (tail != [] ==> tail[0] != b)
    ensures Alternating([b] + tail)
  {
    var st := [b] + tail;
    forall k | 0 <= k < |st| - 1
      ensures st[k] != st[k + 1]
    {
      if k > 0 {
        assert st[k] == tail[k - 1] && st[k + 1] == tail[k];
      }
    }
  }

  /** The status events the client receives alternate, starting with a change from the initial flag. */
  lemma StatusesAlternate(events: seq<GraphEvent>, isInterrupted: bool)
    ensures Alternating(Statuses(Translate(events, isInterrupted)))
    ensures Statuses(Translate(events, isInterrupted)) != [] ==> Statuses(Translate(events, isInterrupted))[0] != isInterrupted
  {
    StatusesOfTranslate(events, isInterrupted);
    StatusTraceAlternates(events, isInterrupted);
  }

  /** One item of `stream_async_answer`'s loop: what it yields, and the tracked flag afterwards. */
  method HandleEvent(data: GraphEvent, isInterrupted: bool) returns (emitted: seq<StreamData>, flag: bool)
    ensures emitted == Forwarded(data) + StatusChange(data, isInterrupted)
    ensures flag == Interrupted(data)
  {
    emitted := [];
    flag := isInterrupted;
    if data.Custom? {
      if data.event.Written? && (data.event.data.StreamChatData? || data.event.data.StreamChunksData?) {
        emitted := emitted + [data.event.data];
      }
    } else if data.interrupts.Some? {
      emitted := emitted + [ChatEvent(data.interrupts.value[0])];
    }
    var interrupted := data.Updates? && data.interrupts.Some?;
    if interrupted != flag {
      emitted := emitted + [StreamInterruptData(interrupted)];
      flag := interrupted;
    }
  }

  /**
   * `stream_async_answer`'s loop: forward what each item carries, then emit a status
   * event whenever the status changes, updating the tracked flag.
   */
  method StreamAsyncAnswer(events: seq<GraphEvent>, isInterrupted: bool) returns (out: seq<StreamData>, finalStatus: bool)
    ensures out == Translate(events, isInterrupted)
    ensures finalStatus == if events == [] then isInterrupted else Interrupted(events[|events| - 1])
  {
    out := [];
    var flag := isInterrupted;
    var i := 0;
    assert events[0..] == events;
    while i < |events|
      invariant 0 <= i <= |events|
      invariant out + Translate(events[i..], flag) == Translate(events, isInterrupted)
      invariant flag == if i == 0 then isInterrupted else Interrupted(events[i - 1])
    {
      TranslateStep(events, i, flag);
      var emitted, flagAfter := HandleEvent(events[i], flag);
      Seqs.AppendAssoc(out, emitted, Translate(events[i + 1..], flagAfter));
      out := out + emitted;
      flag := flagAfter;
      i := i + 1;
    }
    finalStatus := flag;
  }

  /** One step of the translation. */
  lemma TranslateStep(events: seq<GraphEvent>, i: nat, flag: bool)
    requires i < |events|
    ensures Translate(events[i..], flag)
         == (Forwarded(events[i]) + StatusChange(events[i], flag)) + Translate(events[i + 1..], Interrupted(events[i]))
  {
    assert events[i..][1..] == events[i + 1..];
  }

  // ---------------------------------------------------------------------------
  // build
  // ---------------------------------------------------------------------------

  /** Three nodes and no edges: every move is a command; the graph keeps a memory checkpointer. */
  const BookingGraph: Topology := Topology(
    "coordinator",
    ["coordinator", "faq", "operation"],
    [],
    [],
    true)

  lemma BookingGraphWiring()
    ensures BookingGraph.WellFormed() && BookingGraph.entry == Coordinator.Value() && BookingGraph.checkpointer
    ensures forall n :: BookingGraph.Successors(n) == []
  {
  }
}

/** The stream task `handle_llm_stream`, in both revisions: what it forwards
    to the session for the items of a reply stream, given when the session's
    receiver stops accepting events. */
module Stream {
  import opened Wrappers
  import opened Events

  /** One item of the reply stream: a text chunk, or the message of a failed item. */
  type StreamItem = Result<string, string>

  /** The session's receiver: `Open` accepts every event; `ClosedAfter(n)`
      accepts the first `n` sends and refuses every later one. */
  datatype ReceiverLife = Open | ClosedAfter(accepted: nat)

  /** Whether the receiver accepts the send numbered `k` (from 0). */
  predicate Accepts(life: ReceiverLife, k: nat) {
    life.Open? || k < life.accepted
  }

  /** The events that reach the session when the task tries to send `events` in order. */
  function Received(events: seq<Event>, life: ReceiverLife): (r: seq<Event>)
    ensures |r| <= |events| && r == events[..|r|]
    ensures life.Open? ==> r == events
  {
    match life
    case Open => events
    case ClosedAfter(n) => if n < |events| then events[..n] else events
  }

  /** The newer task's event for one item: a chunk, or an error whose message
      names the stream and whose root cause is not an IO error. */
  function ItemEvent(item: StreamItem): (e: Event)
    ensures item.Ok? ==> e == LlmResponse(Chunk(item.value))
    ensures item.Err? ==> e == Error(Failure(false, "LLM Stream error. " + item.error))
  {
    match item
    case Ok(text) => LlmResponse(Chunk(text))
    case Err(message) => Error(Failure(false, "LLM Stream error. " + message))
  }

  /** The older task's event for one item: the older `Error` event carries nothing. */
  function LegacyItemEvent(item: StreamItem): (e: Event)
    ensures item.Ok? ==> e == LlmResponse(Chunk(item.value))
    ensures item.Err? ==> e == Error(Unspecified)
  {
    match item
    case Ok(text) => LlmResponse(Chunk(text))
    case Err(_) => Error(Unspecified)
  }

  /** The events for `items`, one per item, in order. */
  function StreamEvents(items: seq<StreamItem>, toEvent: StreamItem -> Event): (events: seq<Event>)
    ensures |events| == |items|
    ensures forall k :: 0 <= k < |items| ==> events[k] == toEvent(items[k])
    decreases |items|
  {
    if items == [] then [] else [toEvent(items[0])] + StreamEvents(items[1..], toEvent)
  }

  /** Everything the newer task would send: a single error when the stream
      could not be created, else one event per item and then Finished. */
  function TaskEvents(created: Result<seq<StreamItem>, ErrorCause>): seq<Event> {
    match created
    case Err(cause) => [Error(cause)]
    case Ok(items) => StreamEvents(items, ItemEvent) + [LlmResponse(Finished)]
  }

  /** The send loop shared by both revisions: every item is forwarded until a
      send is refused, and Finished is sent once the loop ends either way.
      `pulled` is how many items were taken from the stream. */
  method ForwardItems(items: seq<StreamItem>, toEvent: StreamItem -> Event, life: ReceiverLife)
    returns (delivered: seq<Event>, pulled: nat)
    ensures delivered == Received(StreamEvents(items, toEvent) + [LlmResponse(Finished)], life)
    ensures pulled == if life.ClosedAfter? && life.accepted < |items| then life.accepted + 1 else |items|
  {
    ghost var all := StreamEvents(items, toEvent) + [LlmResponse(Finished)];
    delivered := [];
    var i: nat := 0;
    var refused := false;
    while i < |items|
      invariant 0 <= i <= |items|
      invariant delivered == all[..i]
      invariant forall k :: 0 <= k < i ==> Accepts(life, k)
      invariant refused ==> i < |items| && !Accepts(life, i)
      decreases |items| - i, if refused then 0 else 1
    {
      var event := toEvent(items[i]);
      if !Accepts(life, i) {
        refused := true;
        break;
      }
      delivered := delivered + [event];
      i := i + 1;
    }
    assert !Accepts(life, i) ==> life.ClosedAfter? && life.accepted == i by {
      if i > 0 {
        assert Accepts(life, i - 1);
      }
    }
    if refused {
      pulled := i + 1;
    } else {
      pulled := i;
      if Accepts(life, i) {
        delivered := delivered + [LlmResponse(Finished)];
        assert all[..i + 1] == all;
      }
    }
  }

  /** The newer `handle_llm_stream`: a creation failure is reported as the one
      error event and the task ends; otherwise the items are forwarded. */
  method HandleLlmStream(created: Result<seq<StreamItem>, ErrorCause>, life: ReceiverLife)
    returns (delivered: seq<Event>, pulled: nat)
    ensures delivered == Received(TaskEvents(created), life)
    ensures created.Err? ==> pulled == 0
    ensures created.Ok? ==>
      pulled == if life.ClosedAfter? && life.accepted < |created.value| then life.accepted + 1 else |created.value|
  {
    match created
    case Err(cause) =>
      delivered := if Accepts(life, 0) then [Error(cause)] else [];
      pulled := 0;
    case Ok(items) =>
      delivered, pulled := ForwardItems(items, ItemEvent, life);
  }

  /** The older `handle_llm_stream`: the stream is unwrapped, so a creation
      failure panics the task before it sends anything; otherwise the items are
      forwarded, with every failed item reported as a bare error. */
  method LegacyHandleLlmStream(created: Result<seq<StreamItem>, ErrorCause>, life: ReceiverLife)
    returns (delivered: seq<Event>, panicked: bool)
    ensures panicked <==> created.Err?
    ensures created.Err? ==> delivered == []
    ensures created.Ok? ==>
      delivered == Received(StreamEvents(created.value, LegacyItemEvent) + [LlmResponse(Finished)], life)
  {
    match created
    case Err(_) =>
      delivered, panicked := [], true;
    case Ok(items) =>
      var pulled;
      delivered, pulled := ForwardItems(items, LegacyItemEvent, life);
      panicked := false;
  }

  /** How many of `xs` satisfy `p`. */
  function Count<T>(xs: seq<T>, p: T -> bool): nat
    decreases |xs|
  {
    if xs == [] then 0 else (if p(xs[0]) then 1 else 0) + Count(xs[1..], p)
  }

  lemma {:induction false} CountAppend<T>(a: seq<T>, b: seq<T>, p: T -> bool)
    ensures Count(a + b, p) == Count(a, p) + Count(b, p)
    decreases |a|
  {
    if a == [] {
      assert a + b == b;
    } else {
      assert (a + b)[0] == a[0] && (a + b)[1..] == a[1..] + b;
      CountAppend(a[1..], b, p);
    }
  }

  predicate IsFinished(e: Event) {
    e == LlmResponse(Finished)
  }

  predicate IsChunk(e: Event) {
    e.LlmResponse? && e.response.Chunk?
  }

  predicate IsError(e: Event) {
    e.Error?
  }

  predicate IsOk(item: StreamItem) {
    item.Ok?
  }

  predicate IsErr(item: StreamItem) {
    item.Err?
  }

  /** Per item events: one chunk per text item, one error per failed item, and no Finished. */
  lemma {:induction false} StreamEventsCounts(items: seq<StreamItem>, toEvent: StreamItem -> Event)
    requires toEvent == ItemEvent || toEvent == LegacyItemEvent
    ensures Count(StreamEvents(items, toEvent), IsChunk) == Count(items, IsOk)
    ensures Count(StreamEvents(items, toEvent), IsError) == Count(items, IsErr)
    ensures Count(StreamEvents(items, toEvent), IsFinished) == 0
    decreases |items|
  {
    if items != [] {
      var events := StreamEvents(items, toEvent);
      assert events[0] == toEvent(items[0]);
      assert events[1..] == StreamEvents(items[1..], toEvent);
      StreamEventsCounts(items[1..], toEvent);
    }
  }

  /** What the newer task sends with nothing refused: a failed creation gives
      exactly one error and no Finished; a stream gives one chunk per text
      item, one error per failed item (it carries on after a failed item), and
      exactly one Finished, as the last event. */
  lemma TaskEventCounts(created: Result<seq<StreamItem>, ErrorCause>)
    ensures created.Err? ==> TaskEvents(created) == [Error(created.error)]
    ensures created.Err? ==> Count(TaskEvents(created), IsFinished) == 0
    ensures created.Ok? ==>
      var events := TaskEvents(created);
      Count(events, IsChunk) == Count(created.value, IsOk) &&
      Count(events, IsError) == Count(created.value, IsErr) &&
      Count(events, IsFinished) == 1 && events[|events| - 1] == LlmResponse(Finished)
  {
    match created
    case Err(cause) =>
      assert TaskEvents(created)[1..] == [];
    case Ok(items) =>
      var events := StreamEvents(items, ItemEvent);
      StreamEventsCounts(items, ItemEvent);
      CountAppend(events, [LlmResponse(Finished)], IsChunk);
      CountAppend(events, [LlmResponse(Finished)], IsError);
      CountAppend(events, [LlmResponse(Finished)], IsFinished);
      assert [LlmResponse(Finished)][1..] == [];
  }

  /** A Finished event only ever reaches the session as the last event of a task. */
  lemma FinishedOnlyLast(created: Result<seq<StreamItem>, ErrorCause>, life: ReceiverLife, k: nat)
    requires k < |Received(TaskEvents(created), life)|
    requires Received(TaskEvents(created), life)[k] == LlmResponse(Finished)
    ensures created.Ok? && k == |TaskEvents(created)| - 1
  {
    var events := TaskEvents(created);
    assert events[k] == LlmResponse(Finished);
  }
}

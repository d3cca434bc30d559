/** One event stream, three renderings: collected into a single response, forwarded as server-sent events,
    and kept as a job document. */
module Renderings {
  import opened Types
  import opened Requests
  import opened JobModel

  function Texts(chunks: seq<Chunk>): (texts: seq<string>)
    ensures |texts| == |chunks|
    ensures forall k :: 0 <= k < |chunks| ==> texts[k] == chunks[k].text
  {
    seq(|chunks|, k requires 0 <= k < |chunks| => chunks[k].text)
  }

  function Join(texts: seq<string>): string {
    if texts == [] then "" else texts[0] + Join(texts[1..])
  }

  // ------------------------------------------------------------------ responses

  datatype Tokens = Tokens(prompt: int, completion: int, total: int)

  datatype Response = Response(id: string, text: string, finishReason: string, tokens: Tokens)

  /** The id under which each rendering answers depends on the request alone. */
  function CompletionId(requestId: string): string {
    "chatcmpl-" + requestId
  }

  /** A count that is missing among reported ones is shown as zero. */
  function Shown(usage: Usage): Tokens {
    Tokens(OrZero(usage.promptTokens), OrZero(usage.completionTokens), OrZero(usage.totalTokens))
  }

  function OrZero(count: Option<int>): int {
    if count.Some? then count.value else 0
  }

  /** If the stream brought no token counts, each part counts as one token. */
  function BuildResponse(parts: seq<string>, finishReason: string, id: string, usage: Option<Usage>, promptTokens: nat)
    : Response
  {
    Response(id, Join(parts), finishReason,
             if usage.Some? then Shown(usage.value) else Tokens(promptTokens, |parts|, promptTokens + |parts|))
  }

  // ------------------------------------------------------------------ collected

  /** What waiting for the next event comes to: an event, the news that the client has gone, or the end of
      the waiting handler itself. */
  datatype Arrival = Event(event: StreamEvent) | ClientGone | TornDown

  predicate IsChunk(a: Arrival) {
    a.Event? && a.event.Piece?
  }

  /** The chunks before the first thing that is not one. */
  function Leading(arrivals: seq<Arrival>): (chunks: seq<Chunk>)
    ensures |chunks| <= |arrivals|
  {
    if arrivals == [] || !IsChunk(arrivals[0]) then [] else [arrivals[0].event.chunk] + Leading(arrivals[1..])
  }

  datatype Reply =
    | Completion(response: Response)
    | Failure(statusCode: int, message: string)
    | ClientClosed
    | Abandoned
    | StillWaiting

  /** The reply the first non-chunk determines. */
  function ReplyTo(arrivals: seq<Arrival>, requestId: string, promptTokens: nat): Reply {
    var chunks := Leading(arrivals);
    if |chunks| == |arrivals| then StillWaiting
    else match arrivals[|chunks|]
      case ClientGone => ClientClosed
      case TornDown => Abandoned
      case Event(StreamError(message, statusCode)) => Failure(statusCode, message)
      case Event(StreamEnd(finishReason, usage)) =>
        Completion(BuildResponse(Texts(chunks), finishReason, CompletionId(requestId), usage, promptTokens))
      case Event(Piece(_)) => StillWaiting
  }

  lemma {:induction false} LeadingTaken(arrivals: seq<Arrival>, k: nat)
    requires k <= |arrivals| && forall i :: 0 <= i < k ==> IsChunk(arrivals[i])
    ensures k <= |Leading(arrivals)|
    ensures forall i :: 0 <= i < k ==> arrivals[i] == Event(Piece(Leading(arrivals)[i]))
    ensures k == |arrivals| || !IsChunk(arrivals[k]) ==> |Leading(arrivals)| == k
  {
    if k > 0 {
      assert forall i :: 0 <= i < k - 1 ==> arrivals[1..][i] == arrivals[i + 1];
      LeadingTaken(arrivals[1..], k - 1);
    }
  }

  /** The non-streaming path. `cancelled` tells whether it gave the request up: exactly when it ends without
      having heard how the request ended. */
  method Collect(arrivals: seq<Arrival>, requestId: string, promptTokens: nat) returns (reply: Reply, cancelled: bool)
    ensures reply == ReplyTo(arrivals, requestId, promptTokens)
    ensures cancelled <==> reply == ClientClosed || reply == Abandoned
  {
    var parts := [];
    cancelled := false;
    for k := 0 to |arrivals|
      invariant |parts| == k && !cancelled
      invariant forall i :: 0 <= i < k ==> IsChunk(arrivals[i]) && parts[i] == arrivals[i].event.chunk.text
    {
      LeadingTaken(arrivals, k);
      match arrivals[k]
      case ClientGone =>
        return ClientClosed, true;
      case TornDown =>
        return Abandoned, true;
      case Event(Piece(chunk)) =>
        parts := parts + [chunk.text];
      case Event(StreamError(message, statusCode)) =>
        return Failure(statusCode, message), false;
      case Event(StreamEnd(finishReason, usage)) =>
        assert parts == Texts(Leading(arrivals));
        return Completion(BuildResponse(parts, finishReason, CompletionId(requestId), usage, promptTokens)), false;
    }
    LeadingTaken(arrivals, |arrivals|);
    reply := StillWaiting;
  }

  function Events(channel: seq<StreamEvent>): (arrivals: seq<Arrival>)
    ensures |arrivals| == |channel|
    ensures forall k :: 0 <= k < |channel| ==> arrivals[k] == Event(channel[k])
  {
    seq(|channel|, k requires 0 <= k < |channel| => Event(channel[k]))
  }

  /** A client that stays gets everything a finished channel holds. */
  lemma ReplyToFinished(chunks: seq<Chunk>, end: StreamEvent, requestId: string, promptTokens: nat)
    requires end.IsTerminator()
    ensures var channel := Pieces(chunks) + [end];
      ReplyTo(Events(channel), requestId, promptTokens) ==
        if end.StreamError? then Failure(end.statusCode, end.message)
        else Completion(BuildResponse(Texts(chunks), end.finishReason, CompletionId(requestId), end.usage, promptTokens))
  {
    var channel := Pieces(chunks) + [end];
    LeadingTaken(Events(channel), |chunks|);
    assert Leading(Events(channel)) == chunks;
  }

  // ------------------------------------------------------------------ as a job document

  datatype Document =
    | Answer(response: Response)
    | Refusal(message: string)
    | CancelledNotice
    | Unfinished

  /** The response and error part of a job document. */
  function DocumentOf(job: Job, request: Request, requestId: string, promptTokens: nat): Document {
    match StateOf(job, request)
    case Done =>
      var ended := job.terminal.Some? && job.terminal.value.StreamEnd?;
      Answer(BuildResponse(
        Texts(job.chunks),
        if ended then job.terminal.value.finishReason else "stop",
        CompletionId(requestId),
        if ended then job.terminal.value.usage else None,
        promptTokens))
    case Failed =>
      if job.terminal.Some? && job.terminal.value.StreamError? then Refusal(job.terminal.value.message) else Unfinished
    case Cancelled => CancelledNotice
    case _ => Unfinished
  }

  // ------------------------------------------------------------------ as server-sent events

  datatype Choice = Choice(role: Option<string>, content: Option<string>, finishReason: Option<string>)

  /** What one event of the stream carries. `usage` is None also when what is there reads as nothing. */
  datatype Payload = Payload(
    id: string, model: string, choice: Option<Choice>, usage: Option<Usage>, error: Option<string>)

  function Delta(id: string, model: string, choice: Choice): Payload {
    Payload(id, model, Some(choice), None, None)
  }

  function Problem(message: string): Payload {
    Payload("", "", None, None, Some(message))
  }

  function Greeting(id: string, model: string): Payload {
    Delta(id, model, Choice(Some("assistant"), None, None))
  }

  function Content(id: string, model: string, text: string): Payload {
    Delta(id, model, Choice(None, Some(text), None))
  }

  function Closing(id: string, model: string, end: StreamEvent): Payload
    requires end.IsTerminator()
  {
    if end.StreamError? then Problem(end.message)
    else Delta(id, model, Choice(None, None, Some(end.finishReason)))
  }

  function Contents(id: string, model: string, chunks: seq<Chunk>): (payloads: seq<Payload>)
    ensures |payloads| == |chunks|
    ensures forall k :: 0 <= k < |chunks| ==> payloads[k] == Content(id, model, chunks[k].text)
  {
    seq(|chunks|, k requires 0 <= k < |chunks| => Content(id, model, chunks[k].text))
  }

  /** The payloads of a finished stream, in the order they are sent. */
  function Payloads(id: string, model: string, chunks: seq<Chunk>, end: StreamEvent): seq<Payload>
    requires end.IsTerminator()
  {
    [Greeting(id, model)] + Contents(id, model, chunks) + [Closing(id, model, end)]
  }

  /** What a reader makes of the payloads: their content, put together, and the last finish reason. */
  function Heard(payloads: seq<Payload>): string {
    if payloads == [] then ""
    else (if payloads[0].choice.Some? && payloads[0].choice.value.content.Some?
          then payloads[0].choice.value.content.value else "") + Heard(payloads[1..])
  }

  lemma {:induction false} HeardJoins(id: string, model: string, chunks: seq<Chunk>, rest: seq<Payload>)
    ensures Heard(Contents(id, model, chunks) + rest) == Join(Texts(chunks)) + Heard(rest)
  {
    if chunks == [] {
      assert Contents(id, model, chunks) + rest == rest;
    } else {
      HeardJoins(id, model, chunks[1..], rest);
      assert (Contents(id, model, chunks) + rest)[1..] == Contents(id, model, chunks[1..]) + rest;
      assert Texts(chunks)[1..] == Texts(chunks[1..]);
    }
  }

  lemma HeardIsText(id: string, model: string, chunks: seq<Chunk>, end: StreamEvent)
    requires end.IsTerminator()
    ensures Heard(Payloads(id, model, chunks, end)) == Join(Texts(chunks))
  {
    var all := Payloads(id, model, chunks, end);
    assert all[1..] == Contents(id, model, chunks) + [Closing(id, model, end)];
    HeardJoins(id, model, chunks, [Closing(id, model, end)]);
    assert [Closing(id, model, end)][1..] == [];
  }
}

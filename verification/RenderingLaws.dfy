/** What the renderings say, field by field, and what a reader of any event stream makes of it. */
module RenderingLaws {
  import opened Types
  import opened Requests
  import opened JobModel
  import opened Renderings
  import opened EventStream

  // ------------------------------------------------------------------ text and ids

  /** Putting texts together is the one way of doing it that keeps each text and their order. */
  lemma {:induction false} JoinJoins(a: seq<string>, b: seq<string>)
    ensures Join(a + b) == Join(a) + Join(b)
    ensures |a| == 1 ==> Join(a) == a[0]
    ensures a == [] ==> Join(a) == ""
  {
    if a == [] {
      assert a + b == b;
    } else {
      assert (a + b)[1..] == a[1..] + b;
      JoinJoins(a[1..], b);
      assert |a| == 1 ==> a[1..] == [];
    }
  }

  /** The id of a completion tells which request it answers. */
  lemma CompletionIdTellsRequest(x: string, y: string)
    ensures CompletionId(x) == "chatcmpl-" + x
    ensures CompletionId(x) == CompletionId(y) <==> x == y
  {
    assert CompletionId(x)[9..] == x && CompletionId(y)[9..] == y;
  }

  // ------------------------------------------------------------------ the single response

  function CountOrZero(count: Option<int>): int {
    match count
    case Some(n) => n
    case None => 0
  }

  /** The response says whose answer it is, all of the text, why it ended, and how many tokens it took: as reported,
      with zero for a count that is missing among them, or else as counted from the prompt and the parts. */
  predicate Says(
    r: Response, requestId: string, chunks: seq<Chunk>, finishReason: string, usage: Option<Usage>, promptTokens: nat) {
    && r.id == "chatcmpl-" + requestId && r.text == Join(Texts(chunks)) && r.finishReason == finishReason
    && match usage
       case Some(u) =>
         && r.tokens.prompt == CountOrZero(u.promptTokens) && r.tokens.completion == CountOrZero(u.completionTokens)
         && r.tokens.total == CountOrZero(u.totalTokens)
       case None =>
         && r.tokens.prompt == promptTokens && r.tokens.completion == |chunks|
         && r.tokens.total == promptTokens + |chunks|
  }

  /** The chunks that arrive and then `last`, in the collecting path. */
  function Arriving(chunks: seq<Chunk>, last: Arrival): seq<Arrival> {
    Events(Pieces(chunks)) + [last]
  }

  /** What the collecting path replies, by what follows the chunks. */
  lemma ReplySays(chunks: seq<Chunk>, last: Arrival, requestId: string, promptTokens: nat)
    requires !IsChunk(last)
    ensures var reply := ReplyTo(Arriving(chunks, last), requestId, promptTokens);
      match last
      case ClientGone => reply == ClientClosed
      case TornDown => reply == Abandoned
      case Event(StreamError(message, statusCode)) => reply == Failure(statusCode, message)
      case Event(StreamEnd(finishReason, usage)) =>
        reply.Completion? && Says(reply.response, requestId, chunks, finishReason, usage, promptTokens)
      case Event(Piece(_)) => true
    ensures ReplyTo(Events(Pieces(chunks)), requestId, promptTokens) == StillWaiting
  {
    LeadingTaken(Arriving(chunks, last), |chunks|);
    assert Leading(Arriving(chunks, last)) == chunks;
    LeadingTaken(Events(Pieces(chunks)), |chunks|);
  }

  /** What a job document says, by what the job has recorded and what became of its request. */
  lemma DocumentSays(job: Job, request: Request, requestId: string, promptTokens: nat)
    ensures var document := DocumentOf(job, request, requestId, promptTokens);
      match job.terminal
      case Some(StreamEnd(finishReason, usage)) =>
        document.Answer? && Says(document.response, requestId, job.chunks, finishReason, usage, promptTokens)
      case Some(StreamError(message, _)) => document == Refusal(message)
      case Some(Piece(_)) => true
      case None =>
        if request.cancelled || request.state == Cancelled then document == CancelledNotice
        else if request.state == Done then
          document.Answer? && Says(document.response, requestId, job.chunks, "stop", None, promptTokens)
        else document == Unfinished
  {
  }

  // ------------------------------------------------------------------ the streamed payloads

  predicate IsLabelled(p: Payload, id: string, model: string) {
    p.id == id && p.model == model && p.usage.None? && p.error.None? && p.choice.Some?
  }

  /** A finished stream says hello, then each chunk's text in order, then why it ended, all under the same id and
      model; or, in the end, what went wrong. */
  lemma PayloadsSay(id: string, model: string, chunks: seq<Chunk>, end: StreamEvent)
    requires end.IsTerminator()
    ensures var all := Payloads(id, model, chunks, end);
      var n := |chunks|;
      && |all| == n + 2
      && (forall k :: 0 <= k <= n ==> IsLabelled(all[k], id, model) && all[k].choice.value.finishReason.None?)
      && all[0].choice.value.role == Some("assistant") && all[0].choice.value.content.None?
      && (forall k :: 0 <= k < n ==> all[k + 1].choice.value.content == Some(chunks[k].text)
                                     && all[k + 1].choice.value.role.None?)
      && (end.StreamEnd? ==>
            && IsLabelled(all[n + 1], id, model) && all[n + 1].choice.value.content.None?
            && all[n + 1].choice.value.finishReason == Some(end.finishReason) && all[n + 1].choice.value.role.None?)
      && (end.StreamError? ==> all[n + 1].error == Some(end.message) && all[n + 1].choice.None?)
  {
  }

  // ------------------------------------------------------------------ hearing any stream

  function ReasonIn(p: Payload): string {
    if p.choice.Some? && p.choice.value.finishReason.Some? then p.choice.value.finishReason.value else ""
  }

  /** The last finish reason that is not empty; `"stop"` if there is none. */
  ghost predicate IsLastReason(payloads: seq<Payload>, reason: string) {
    || (reason == "stop" && forall k :: 0 <= k < |payloads| ==> ReasonIn(payloads[k]) == "")
    || (exists k :: 0 <= k < |payloads| && IsReasonAt(payloads, k, reason))
  }

  ghost predicate IsReasonAt(payloads: seq<Payload>, k: nat, reason: string)
    requires k < |payloads|
  {
    reason != "" && ReasonIn(payloads[k]) == reason && forall j :: k < j < |payloads| ==> ReasonIn(payloads[j]) == ""
  }

  /** The counts reported last, unless there is none among them; nothing if none were reported. */
  ghost predicate IsLastUsage(payloads: seq<Payload>, usage: Option<Usage>) {
    || (usage.None? && forall k :: 0 <= k < |payloads| ==> payloads[k].usage.None?)
    || (exists k :: 0 <= k < |payloads| && IsUsageAt(payloads, k, usage))
  }

  ghost predicate IsUsageAt(payloads: seq<Payload>, k: nat, usage: Option<Usage>)
    requires k < |payloads|
  {
    && payloads[k].usage.Some? && (forall j :: k < j < |payloads| ==> payloads[j].usage.None?)
    && var u := payloads[k].usage.value;
    if u.promptTokens.None? && u.completionTokens.None? && u.totalTokens.None? then usage.None?
    else usage == Some(u)
  }

  function TextIn(p: Payload): string {
    if p.choice.Some? && p.choice.value.content.Some? then p.choice.value.content.value else ""
  }

  /** Chunks are numbered from zero and never empty, and their texts are all the text there was. */
  ghost predicate HoldsText(payloads: seq<Payload>, chunks: seq<Chunk>) {
    && Join(Texts(chunks)) == Renderings.Heard(payloads)
    && forall k :: 0 <= k < |chunks| ==> chunks[k].index == k && chunks[k].text != ""
  }

  lemma {:induction false} HearAllSnoc(h: EventStream.Heard, payloads: seq<Payload>, last: Payload)
    ensures HearAll(h, payloads + [last]) == Hear(HearAll(h, payloads), last)
    decreases |payloads|
  {
    if payloads == [] {
      assert [last][1..] == [] && [] + [last] == [last];
    } else {
      assert (payloads + [last])[1..] == payloads[1..] + [last];
      HearAllSnoc(Hear(h, payloads[0]), payloads[1..], last);
    }
  }

  lemma {:induction false} HeardSnoc(payloads: seq<Payload>, last: Payload)
    ensures Renderings.Heard(payloads + [last]) == Renderings.Heard(payloads) + TextIn(last)
    decreases |payloads|
  {
    if payloads == [] {
      assert [last][1..] == [] && [] + [last] == [last];
    } else {
      assert (payloads + [last])[1..] == payloads[1..] + [last];
      HeardSnoc(payloads[1..], last);
    }
  }

  /** Whatever is said in a stream, the reader ends with all of its text, the last reason given and the counts
      reported last. */
  lemma {:induction false} HearingIsRight(payloads: seq<Payload>)
    ensures var h := HearAll(SILENCE, payloads);
      HoldsText(payloads, h.chunks) && IsLastReason(payloads, h.finishReason) && IsLastUsage(payloads, h.usage)
    decreases |payloads|
  {
    if payloads != [] {
      var n := |payloads| - 1;
      assert payloads == payloads[..n] + [payloads[n]];
      HearingIsRight(payloads[..n]);
      HearAllSnoc(SILENCE, payloads[..n], payloads[n]);
      HeardSnoc(payloads[..n], payloads[n]);
      OneMoreText(payloads[..n], payloads[n], HearAll(SILENCE, payloads[..n]));
      OneMoreReason(payloads[..n], payloads[n], HearAll(SILENCE, payloads[..n]));
      OneMoreUsage(payloads[..n], payloads[n], HearAll(SILENCE, payloads[..n]));
    }
  }

  lemma OneMoreText(payloads: seq<Payload>, last: Payload, h: EventStream.Heard)
    requires HoldsText(payloads, h.chunks)
    requires Renderings.Heard(payloads + [last]) == Renderings.Heard(payloads) + TextIn(last)
    ensures HoldsText(payloads + [last], Hear(h, last).chunks)
  {
    var text := TextIn(last);
    if text != "" {
      var chunk := Chunk(text, |h.chunks|);
      assert Texts(h.chunks + [chunk]) == Texts(h.chunks) + [text];
      JoinJoins(Texts(h.chunks), [text]);
      JoinJoins([text], []);
    }
  }

  lemma OneMoreReason(payloads: seq<Payload>, last: Payload, h: EventStream.Heard)
    requires IsLastReason(payloads, h.finishReason)
    ensures IsLastReason(payloads + [last], Hear(h, last).finishReason)
  {
    var all := payloads + [last];
    if ReasonIn(last) != "" {
      assert IsReasonAt(all, |payloads|, ReasonIn(last));
    } else if k :| 0 <= k < |payloads| && IsReasonAt(payloads, k, h.finishReason) {
      assert IsReasonAt(all, k, h.finishReason);
    }
  }

  lemma OneMoreUsage(payloads: seq<Payload>, last: Payload, h: EventStream.Heard)
    requires IsLastUsage(payloads, h.usage)
    ensures IsLastUsage(payloads + [last], Hear(h, last).usage)
  {
    var all := payloads + [last];
    if last.usage.Some? {
      assert IsUsageAt(all, |payloads|, Hear(h, last).usage);
    } else if k :| 0 <= k < |payloads| && IsUsageAt(payloads, k, h.usage) {
      assert IsUsageAt(all, k, h.usage);
    }
  }

  /** Read off the wire line by line, any stream of payloads that ends with the terminator is heard right. */
  lemma WireIsHeard(json: Json, payloads: seq<Payload>)
    requires json.Valid()
    ensures var h := HearLines(json, SILENCE, Lines(Concat(Frames(json, payloads)) + Frame(DONE)));
      HoldsText(payloads, h.chunks) && IsLastReason(payloads, h.finishReason) && IsLastUsage(payloads, h.usage)
  {
    FramesAreHeard(json, SILENCE, payloads, Frame(DONE));
    assert Frame(DONE) + "" == Frame(DONE);
    TerminatorIsHeard(json, HearAll(SILENCE, payloads), "");
    HearingIsRight(payloads);
  }

  // ------------------------------------------------------------------ lines that say nothing

  /** Nothing but blanks, a comment, another field, or data that is neither the terminator nor a payload. */
  ghost predicate IsNoise(json: Json, line: string) {
    || (forall i :: 0 <= i < |line| ==> IsSpace(line[i]))
    || (line != "" && !IsSpace(line[0]) && !StartsWith(line, DATA))
    || exists data :: IsUnreadable(json, line, data)
  }

  predicate IsUnreadable(json: Json, line: string, data: string) {
    IsTrimmed(data) && line == "data: " + data && data != DONE && json.decode(data).None?
  }

  predicate IsTrimmed(text: string) {
    text != "" && !IsSpace(text[0]) && !IsSpace(text[|text| - 1])
  }

  predicate AllSpace(text: string) {
    forall i :: 0 <= i < |text| ==> IsSpace(text[i])
  }

  /** Stripping takes the blanks at both ends and nothing more. */
  lemma StripTrims(left: string, text: string, right: string)
    requires AllSpace(left) && AllSpace(right) && IsTrimmed(text)
    ensures Strip(left + text + right) == text
  {
    StripLeftTrims(left, text + right);
    assert left + text + right == left + (text + right);
    StripRightTrims(text, right);
  }

  lemma {:induction false} StripLeftTrims(left: string, text: string)
    requires AllSpace(left) && text != "" && !IsSpace(text[0])
    ensures StripLeft(left + text) == text
    decreases |left|
  {
    if left == "" {
      assert left + text == text;
    } else {
      assert (left + text)[1..] == left[1..] + text;
      StripLeftTrims(left[1..], text);
    }
  }

  lemma {:induction false} StripRightTrims(text: string, right: string)
    requires AllSpace(right) && text != "" && !IsSpace(text[|text| - 1])
    ensures StripRight(text + right) == text
    decreases |right|
  {
    if right == "" {
      assert text + right == text;
    } else {
      var n := |right| - 1;
      assert (text + right)[..|text| + n] == text + right[..n];
      StripRightTrims(text, right[..n]);
    }
  }

  lemma {:induction false} BlankStripsToNothing(text: string)
    requires AllSpace(text)
    ensures Strip(text) == ""
    decreases |text|
  {
    if text != "" {
      BlankStripsToNothing(text[1..]);
      assert StripLeft(text) == StripLeft(text[1..]);
    }
  }

  lemma {:induction false} StripRightIsPrefix(text: string)
    ensures StripRight(text) <= text
    decreases |text|
  {
    if text != "" && IsSpace(text[|text| - 1]) {
      StripRightIsPrefix(text[..|text| - 1]);
    }
  }

  lemma NoiseIsNoise(json: Json, line: string)
    requires IsNoise(json, line)
    ensures ParseLine(json, line) == Noise
  {
    if AllSpace(line) {
      BlankStripsToNothing(line);
    } else if line != "" && !IsSpace(line[0]) && !StartsWith(line, DATA) {
      StripRightIsPrefix(line);
    } else {
      var data :| IsUnreadable(json, line, data);
      FrameIsParsed(json, data);
    }
  }

  /** Such lines can stand anywhere in a stream: the reader hears the same without them. And whatever follows the
      terminator is not heard. */
  lemma {:induction false} NoiseIsIgnored(
    json: Json, h: EventStream.Heard, before: seq<string>, line: string, rest: seq<string>)
    requires IsNoise(json, line)
    ensures HearLines(json, h, before + [line] + rest) == HearLines(json, h, before + rest)
    ensures HearLines(json, h, ["data: " + DONE] + rest) == h
    decreases |before|
  {
    FrameIsParsed(json, DONE);
    assert (["data: " + DONE] + rest)[1..] == rest;
    NoiseIsNoise(json, line);
    if before == [] {
      assert before + [line] + rest == [line] + rest && ([line] + rest)[1..] == rest && before + rest == rest;
    } else {
      var lines := before + [line] + rest;
      assert lines[0] == before[0] && lines[1..] == before[1..] + [line] + rest;
      assert (before + rest)[1..] == before[1..] + rest;
      match ParseLine(json, before[0])
      case Noise => NoiseIsIgnored(json, h, before[1..], line, rest);
      case Finish =>
      case Message(p) => NoiseIsIgnored(json, Hear(h, p), before[1..], line, rest);
    }
  }

  // ------------------------------------------------------------------ line ends and blanks

  lemma {:induction false} AnyBreakEnds(begun: string, head: string, end: char, rest: string)
    requires HasNoBreak(head) && end in {'\n', '\r'}
    ensures LinesFrom(begun, head + [end] + rest) == [begun + head] + LinesFrom("", rest)
    decreases |head|
  {
    var text := head + [end] + rest;
    if head == "" {
      assert text[0] == end && text[1..] == rest && begun + head == begun;
    } else {
      assert text[0] == head[0] && text[1..] == head[1..] + [end] + rest;
      assert (begun + [head[0]]) + head[1..] == begun + head;
      AnyBreakEnds(begun + [head[0]], head[1..], end, rest);
    }
  }

  /** Whether a line ends with a line feed, a carriage return or both, the reader hears the same. */
  lemma LineEndsAgree(json: Json, h: EventStream.Heard, head: string, rest: string)
    requires HasNoBreak(head)
    ensures HearLines(json, h, Lines(head + "\r" + rest)) == HearLines(json, h, Lines(head + "\n" + rest))
    ensures HearLines(json, h, Lines(head + "\r\n" + rest)) == HearLines(json, h, Lines(head + "\n" + rest))
  {
    AnyBreakEnds("", head, '\n', rest);
    AnyBreakEnds("", head, '\r', rest);
    AnyBreakEnds("", head, '\r', "\n" + rest);
    assert head + "\r\n" + rest == head + ['\r'] + ("\n" + rest);
    AnyBreakEnds("", "", '\n', rest);
    assert "" + ['\n'] + rest == "\n" + rest && "" + head == head;
    NoiseIsIgnored(json, h, [head], "", LinesFrom("", rest));
    assert [head] + ([""] + LinesFrom("", rest)) == [head] + [""] + LinesFrom("", rest);
  }

  predicate IsAsciiBlank(text: string) {
    forall i :: 0 <= i < |text| ==> text[i] in {' ', '\t', '\U{B}', '\U{C}', '\r', '\n'}
  }

  /** Blanks before the field, before its data and after it change nothing, and it needs none. */
  lemma BlanksDoNotMatter(json: Json, left: string, middle: string, data: string, right: string)
    requires IsAsciiBlank(left) && IsAsciiBlank(middle) && IsAsciiBlank(right) && IsTrimmed(data)
    ensures ParseLine(json, left + "data:" + middle + data + right) == ParseLine(json, "data: " + data)
  {
    var line := "data:" + middle + data;
    FrameIsParsed(json, data);
    assert line[0] == 'd' && line[|line| - 1] == data[|data| - 1];
    assert left + "data:" + middle + data + right == left + line + right;
    StripTrims(left, line, right);
    assert line[..5] == DATA && line[5..] == middle + data;
    assert middle + data == middle + data + "";
    StripTrims(middle, data, "");
    assert ":"[0] == ':';
  }
}

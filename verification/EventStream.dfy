/** Server-sent events on the wire: the printer of the streaming path, and the parser of the vLLM backend
    that reads what such a printer sends. Framing as in section 9.2 of the WHATWG HTML Living Standard. */
module EventStream {
  import opened Types
  import opened Renderings

  // ------------------------------------------------------------------ text

  predicate IsLineBreak(c: char) {
    c == '\n' || c == '\r'
  }

  /** What stripping a line removes at its ends: blanks, tabs, breaks, separators, and Unicode's own spaces. */
  predicate IsSpace(c: char) {
    || '\t' <= c <= '\r' || '\U{1C}' <= c <= ' ' || c == '\U{85}' || c == '\U{A0}' || c == '\U{1680}'
    || '\U{2000}' <= c <= '\U{200A}' || c == '\U{2028}' || c == '\U{2029}' || c == '\U{202F}'
    || c == '\U{205F}' || c == '\U{3000}'
  }

  predicate HasNoBreak(text: string) {
    forall i :: 0 <= i < |text| ==> !IsLineBreak(text[i])
  }

  /** The lines of a text, as a line reader delivers them: what follows the last break is a line only if
      there is something of it. */
  function Lines(text: string): seq<string> {
    LinesFrom("", text)
  }

  function LinesFrom(begun: string, text: string): seq<string>
    decreases |text|
  {
    if text == "" then (if begun == "" then [] else [begun])
    else if IsLineBreak(text[0]) then [begun] + LinesFrom("", text[1..])
    else LinesFrom(begun + [text[0]], text[1..])
  }

  function StripLeft(text: string): string {
    if text == "" || !IsSpace(text[0]) then text else StripLeft(text[1..])
  }

  function StripRight(text: string): string {
    if text == "" || !IsSpace(text[|text| - 1]) then text else StripRight(text[..|text| - 1])
  }

  function Strip(text: string): string {
    StripRight(StripLeft(text))
  }

  predicate StartsWith(text: string, prefix: string) {
    prefix <= text
  }

  const DATA: string := "data:"
  const DONE: string := "[DONE]"

  // ------------------------------------------------------------------ JSON, as far as it matters here

  /** A serialiser and a parser that undo each other; what is serialised is one line, not padded with
      blanks, and never the terminator. */
  datatype Json = Json(encode: Payload -> string, decode: string -> Option<Payload>)
  {
    ghost predicate Encodes(p: Payload) {
      var text := encode(p);
      && decode(text) == Some(p)
      && text != "" && text != DONE && HasNoBreak(text)
      && !IsSpace(text[0]) && !IsSpace(text[|text| - 1])
    }

    ghost predicate Valid() {
      forall p: Payload :: Encodes(p)
    }
  }

  // ------------------------------------------------------------------ printing

  function Frame(data: string): string {
    "data: " + data + "\n\n"
  }

  function Frames(json: Json, payloads: seq<Payload>): seq<string> {
    if payloads == [] then [] else [Frame(json.encode(payloads[0]))] + Frames(json, payloads[1..])
  }

  function Concat(frames: seq<string>): string {
    if frames == [] then "" else frames[0] + Concat(frames[1..])
  }

  /** What is sent for the events up to the first that ends the stream. */
  function Sent(json: Json, arrivals: seq<Arrival>, id: string, model: string): seq<string> {
    var chunks := Leading(arrivals);
    var opening := Frames(json, [Greeting(id, model)] + Contents(id, model, chunks));
    if |chunks| == |arrivals| || !arrivals[|chunks|].Event? || !arrivals[|chunks|].event.IsTerminator() then opening
    else opening + [Frame(json.encode(Closing(id, model, arrivals[|chunks|].event))), Frame(DONE)]
  }

  lemma {:induction false} FramesSnoc(json: Json, payloads: seq<Payload>, last: Payload)
    ensures Frames(json, payloads + [last]) == Frames(json, payloads) + [Frame(json.encode(last))]
  {
    if payloads == [] {
      assert [last][1..] == [] && [] + [last] == [last];
    } else {
      assert (payloads + [last])[1..] == payloads[1..] + [last];
      FramesSnoc(json, payloads[1..], last);
    }
  }

  /** The streaming path, in the events' own order. However it ends, by the stream's end, the client's leaving
      or its own being torn down, it gives up a request that has no finishing time by then; and it always
      does when the client has left. A stream that only waits gives nothing up. */
  method Stream(json: Json, arrivals: seq<Arrival>, id: string, model: string, finished: bool)
    returns (frames: seq<string>, cancelled: bool)
    ensures frames == Sent(json, arrivals, id, model)
    ensures cancelled <==>
      |Leading(arrivals)| < |arrivals| && (!finished || arrivals[|Leading(arrivals)|].ClientGone?)
  {
    frames := [Frame(json.encode(Greeting(id, model)))];
    ghost var sent := [Greeting(id, model)];
    assert Frames(json, sent) == frames;
    for k := 0 to |arrivals|
      invariant forall i :: 0 <= i < k ==> IsChunk(arrivals[i])
      invariant frames == Frames(json, sent) && |sent| == k + 1 && sent[0] == Greeting(id, model)
      invariant forall i :: 0 <= i < k ==> sent[i + 1] == Content(id, model, arrivals[i].event.chunk.text)
    {
      LeadingTaken(arrivals, k);
      match arrivals[k]
      case ClientGone =>
        assert sent == [Greeting(id, model)] + Contents(id, model, Leading(arrivals));
        return frames, true;
      case TornDown =>
        assert sent == [Greeting(id, model)] + Contents(id, model, Leading(arrivals));
        return frames, !finished;
      case Event(Piece(chunk)) =>
        FramesSnoc(json, sent, Content(id, model, chunk.text));
        frames := frames + [Frame(json.encode(Content(id, model, chunk.text)))];
        sent := sent + [Content(id, model, chunk.text)];
      case Event(StreamError(message, _)) =>
        assert sent == [Greeting(id, model)] + Contents(id, model, Leading(arrivals));
        frames := frames + [Frame(json.encode(Problem(message)))];
        return frames + [Frame(DONE)], !finished;
      case Event(StreamEnd(finishReason, _)) =>
        assert sent == [Greeting(id, model)] + Contents(id, model, Leading(arrivals));
        frames := frames + [Frame(json.encode(Delta(id, model, Choice(None, None, Some(finishReason)))))];
        return frames + [Frame(DONE)], !finished;
    }
    LeadingTaken(arrivals, |arrivals|);
    assert sent == [Greeting(id, model)] + Contents(id, model, Leading(arrivals));
    cancelled := false;
  }

  // ------------------------------------------------------------------ parsing

  datatype Parsed = Noise | Finish | Message(payload: Payload)

  /** One line to an event, the terminator, or nothing. */
  function ParseLine(json: Json, line: string): Parsed {
    var text := Strip(line);
    if text == "" || StartsWith(text, ":") || !StartsWith(text, DATA) then Noise
    else
      var data := Strip(text[|DATA|..]);
      if data == DONE then Finish
      else
        var decoded := json.decode(data);
        if decoded.Some? then Message(decoded.value) else Noise
  }

  /** What has been read of a stream: the chunks passed on, and how it will be said to have ended. */
  datatype Heard = Heard(chunks: seq<Chunk>, finishReason: string, usage: Option<Usage>)

  /** Reported counts without a single one among them are none. */
  function Kept(usage: Usage): Option<Usage> {
    if usage == Usage(None, None, None) then None else Some(usage)
  }

  function Hear(h: Heard, p: Payload): Heard {
    var text := if p.choice.Some? && p.choice.value.content.Some? then p.choice.value.content.value else "";
    var reason := if p.choice.Some? && p.choice.value.finishReason.Some? then p.choice.value.finishReason.value else "";
    Heard(
      if text == "" then h.chunks else h.chunks + [Chunk(text, |h.chunks|)],
      if reason == "" then h.finishReason else reason,
      if p.usage.Some? then Kept(p.usage.value) else h.usage)
  }

  /** Everything up to the terminator, or to the end if there is none. */
  function HearLines(json: Json, h: Heard, lines: seq<string>): Heard
    decreases |lines|
  {
    if lines == [] then h
    else match ParseLine(json, lines[0])
      case Noise => HearLines(json, h, lines[1..])
      case Finish => h
      case Message(p) => HearLines(json, Hear(h, p), lines[1..])
  }

  const SILENCE: Heard := Heard([], "stop", None)

  /** The backend's event loop over the lines of a response. */
  method Read(json: Json, lines: seq<string>) returns (chunks: seq<Chunk>, end: StreamEvent)
    ensures var h := HearLines(json, SILENCE, lines);
      chunks == h.chunks && end == StreamEnd(h.finishReason, h.usage)
  {
    chunks := [];
    var index := 0;
    var finishReason, usage := "stop", None;
    for k := 0 to |lines|
      invariant index == |chunks|
      invariant HearLines(json, SILENCE, lines) == HearLines(json, Heard(chunks, finishReason, usage), lines[k..])
    {
      assert lines[k..][0] == lines[k] && lines[k..][1..] == lines[k + 1..];
      var event := ParseLine(json, lines[k]);
      if event.Finish? {
        return chunks, StreamEnd(finishReason, usage);
      }
      if event.Message? {
        if event.payload.choice.Some? {
          var choice := event.payload.choice.value;
          if choice.content.Some? && choice.content.value != "" {
            chunks := chunks + [Chunk(choice.content.value, index)];
            index := index + 1;
          }
          if choice.finishReason.Some? && choice.finishReason.value != "" {
            finishReason := choice.finishReason.value;
          }
        }
        if event.payload.usage.Some? {
          usage := Kept(event.payload.usage.value);
        }
      }
    }
    end := StreamEnd(finishReason, usage);
  }

  // ------------------------------------------------------------------ one frame

  lemma {:induction false} LineEnds(begun: string, head: string, rest: string)
    requires HasNoBreak(head)
    ensures LinesFrom(begun, head + "\n" + rest) == [begun + head] + LinesFrom("", rest)
    decreases |head|
  {
    var text := head + "\n" + rest;
    if head == "" {
      assert text[0] == '\n' && text[1..] == rest && begun + head == begun;
    } else {
      assert text[0] == head[0] && text[1..] == head[1..] + "\n" + rest;
      assert (begun + [head[0]]) + head[1..] == begun + head;
      LineEnds(begun + [head[0]], head[1..], rest);
    }
  }

  /** A frame is one line and a blank one. */
  lemma FrameIsTwoLines(data: string, rest: string)
    requires HasNoBreak(data)
    ensures Lines(Frame(data) + rest) == ["data: " + data, ""] + Lines(rest)
  {
    var line := "data: " + data;
    assert HasNoBreak("data: ") && HasNoBreak(line);
    assert Frame(data) + rest == line + "\n" + ("\n" + rest);
    LineEnds("", line, "\n" + rest);
    assert "" + line == line;
    assert "\n" + rest == "" + "\n" + rest;
    LineEnds("", "", rest);
    assert [line] + ([""] + Lines(rest)) == [line, ""] + Lines(rest);
  }

  lemma StripLeavesTrimmed(text: string)
    requires text != "" && !IsSpace(text[0]) && !IsSpace(text[|text| - 1])
    ensures Strip(text) == text && Strip(" " + text) == text
  {
    assert (" " + text)[1..] == text;
  }

  lemma FrameIsParsed(json: Json, data: string)
    requires data != "" && !IsSpace(data[0]) && !IsSpace(data[|data| - 1])
    ensures ParseLine(json, "data: " + data) ==
      if data == DONE then Finish
      else if json.decode(data).Some? then Message(json.decode(data).value) else Noise
    ensures ParseLine(json, "") == Noise
  {
    var line := "data: " + data;
    assert line[0] == 'd' && line[|line| - 1] == data[|data| - 1];
    StripLeavesTrimmed(line);
    assert line[..5] == DATA;
    assert line[5..] == " " + data;
    StripLeavesTrimmed(data);
    assert ":"[0] == ':';
  }

  lemma MessageIsHeard(json: Json, h: Heard, p: Payload, rest: string)
    requires json.Valid()
    ensures HearLines(json, h, Lines(Frame(json.encode(p)) + rest)) == HearLines(json, Hear(h, p), Lines(rest))
  {
    assert json.Encodes(p);
    var data := json.encode(p);
    FrameIsTwoLines(data, rest);
    FrameIsParsed(json, data);
    var lines := ["data: " + data, ""] + Lines(rest);
    assert lines[1..] == [""] + Lines(rest) && ([""] + Lines(rest))[1..] == Lines(rest);
  }

  lemma TerminatorIsHeard(json: Json, h: Heard, rest: string)
    ensures HearLines(json, h, Lines(Frame(DONE) + rest)) == h
  {
    FrameIsTwoLines(DONE, rest);
    FrameIsParsed(json, DONE);
  }

  // ------------------------------------------------------------------ a whole stream

  function HearAll(h: Heard, payloads: seq<Payload>): Heard
    decreases |payloads|
  {
    if payloads == [] then h else HearAll(Hear(h, payloads[0]), payloads[1..])
  }

  lemma {:induction false} FramesAreHeard(json: Json, h: Heard, payloads: seq<Payload>, rest: string)
    requires json.Valid()
    ensures HearLines(json, h, Lines(Concat(Frames(json, payloads)) + rest)) ==
      HearLines(json, HearAll(h, payloads), Lines(rest))
    decreases |payloads|
  {
    var text := Concat(Frames(json, payloads));
    if payloads == [] {
      assert text + rest == rest;
    } else {
      var first, others := Frame(json.encode(payloads[0])), Concat(Frames(json, payloads[1..]));
      assert text + rest == first + (others + rest);
      MessageIsHeard(json, h, payloads[0], others + rest);
      FramesAreHeard(json, Hear(h, payloads[0]), payloads[1..], rest);
    }
  }

  /** The non-empty texts, numbered afresh. */
  function Renumbered(chunks: seq<Chunk>, from: nat): seq<Chunk> {
    if chunks == [] then []
    else if chunks[0].text == "" then Renumbered(chunks[1..], from)
    else [Chunk(chunks[0].text, from)] + Renumbered(chunks[1..], from + 1)
  }

  lemma {:induction false} ContentsAreHeard(h: Heard, id: string, model: string, chunks: seq<Chunk>, last: Payload)
    ensures HearAll(h, Contents(id, model, chunks) + [last]) ==
      Hear(h.(chunks := h.chunks + Renumbered(chunks, |h.chunks|)), last)
    decreases |chunks|
  {
    var all := Contents(id, model, chunks) + [last];
    if chunks == [] {
      assert all == [last] && all[1..] == [];
      assert h.chunks + [] == h.chunks;
    } else {
      var text := chunks[0].text;
      assert all[0] == Content(id, model, text) && all[1..] == Contents(id, model, chunks[1..]) + [last];
      var next := Hear(h, all[0]);
      ContentsAreHeard(next, id, model, chunks[1..], last);
      OneMoreHeard(h, id, model, chunks);
    }
  }

  lemma OneMoreHeard(h: Heard, id: string, model: string, chunks: seq<Chunk>)
    requires chunks != []
    ensures var next := Hear(h, Content(id, model, chunks[0].text));
      next.(chunks := next.chunks + Renumbered(chunks[1..], |next.chunks|)) ==
        h.(chunks := h.chunks + Renumbered(chunks, |h.chunks|))
  {
    var n, text := |h.chunks|, chunks[0].text;
    var next := Hear(h, Content(id, model, text));
    if text == "" {
      assert next == h;
    } else {
      var later := Renumbered(chunks[1..], n + 1);
      assert next == h.(chunks := h.chunks + [Chunk(text, n)]) && |next.chunks| == n + 1;
      assert Renumbered(chunks, n) == [Chunk(text, n)] + later;
      JoinsAreOne(h.chunks, [Chunk(text, n)], later);
    }
  }

  lemma JoinsAreOne(a: seq<Chunk>, b: seq<Chunk>, c: seq<Chunk>)
    ensures a + (b + c) == (a + b) + c
  {
  }

  lemma PayloadsAreHeard(id: string, model: string, chunks: seq<Chunk>, end: StreamEvent)
    requires end.IsTerminator()
    ensures HearAll(SILENCE, Payloads(id, model, chunks, end)) ==
      Heard(Renumbered(chunks, 0), if end.StreamEnd? && end.finishReason != "" then end.finishReason else "stop", None)
  {
    var all := Payloads(id, model, chunks, end);
    assert all[0] == Greeting(id, model) && all[1..] == Contents(id, model, chunks) + [Closing(id, model, end)];
    assert Hear(SILENCE, all[0]) == SILENCE;
    ContentsAreHeard(SILENCE, id, model, chunks, Closing(id, model, end));
    assert [] + Renumbered(chunks, 0) == Renumbered(chunks, 0);
  }

  lemma {:induction false} ConcatJoins(a: seq<string>, b: seq<string>)
    ensures Concat(a + b) == Concat(a) + Concat(b)
  {
    if a == [] {
      assert a + b == b;
    } else {
      assert (a + b)[1..] == a[1..] + b;
      ConcatJoins(a[1..], b);
    }
  }

  lemma SentIsPayloads(json: Json, chunks: seq<Chunk>, end: StreamEvent, id: string, model: string)
    requires end.IsTerminator()
    ensures Concat(Sent(json, Events(Pieces(chunks) + [end]), id, model)) ==
      Concat(Frames(json, Payloads(id, model, chunks, end))) + Frame(DONE)
  {
    var arrivals := Events(Pieces(chunks) + [end]);
    LeadingTaken(arrivals, |chunks|);
    assert Leading(arrivals) == chunks;
    var opening := [Greeting(id, model)] + Contents(id, model, chunks);
    FramesSnoc(json, opening, Closing(id, model, end));
    var frames := Frames(json, Payloads(id, model, chunks, end));
    assert Sent(json, arrivals, id, model) == frames + [Frame(DONE)];
    ConcatJoins(frames, [Frame(DONE)]);
    assert Concat([Frame(DONE)]) == Frame(DONE) + Concat([]);
  }

  /** Reading back what was sent for a finished stream gives exactly its non-empty texts, numbered from
      zero, and its finish reason, unless that is empty. A stream that ended in an error reads back as one
      that simply stopped: the parser does not see the error in band. */
  lemma RoundTrip(json: Json, chunks: seq<Chunk>, end: StreamEvent, id: string, model: string)
    requires json.Valid() && end.IsTerminator()
    ensures HearLines(json, SILENCE, Lines(Concat(Sent(json, Events(Pieces(chunks) + [end]), id, model)))) ==
      Heard(Renumbered(chunks, 0), if end.StreamEnd? && end.finishReason != "" then end.finishReason else "stop", None)
  {
    var payloads := Payloads(id, model, chunks, end);
    SentIsPayloads(json, chunks, end, id, model);
    FramesAreHeard(json, SILENCE, payloads, Frame(DONE));
    PayloadsAreHeard(id, model, chunks, end);
    assert Frame(DONE) + "" == Frame(DONE);
    TerminatorIsHeard(json, HearAll(SILENCE, payloads), "");
  }

  /** Numbered from zero and without empty texts, as every backend's own chunks are meant to be. */
  predicate IsPlain(chunks: seq<Chunk>) {
    forall k :: 0 <= k < |chunks| ==> chunks[k].text != "" && chunks[k].index == k
  }

  predicate IsPlainFrom(chunks: seq<Chunk>, from: nat) {
    forall k :: 0 <= k < |chunks| ==> chunks[k].text != "" && chunks[k].index == from + k
  }

  lemma {:induction false} RenumberedIsSameIff(chunks: seq<Chunk>, from: nat)
    ensures |Renumbered(chunks, from)| <= |chunks|
    ensures Renumbered(chunks, from) == chunks <==> IsPlainFrom(chunks, from)
  {
    if chunks != [] {
      assert forall k :: 0 <= k < |chunks[1..]| ==> chunks[1..][k] == chunks[k + 1];
      if chunks[0].text == "" {
        RenumberedIsSameIff(chunks[1..], from);
      } else {
        RenumberedIsSameIff(chunks[1..], from + 1);
        var renumbered := Renumbered(chunks, from);
        assert renumbered[0] == Chunk(chunks[0].text, from);
        assert renumbered[1..] == Renumbered(chunks[1..], from + 1);
        assert chunks == [chunks[0]] + chunks[1..];
      }
    }
  }

  /** The stream read back is the stream sent, chunk for chunk and with its end, if and only if it ended
      properly, with a finish reason and no token counts, and its chunks are plain. */
  lemma RoundTripIsExactIff(json: Json, chunks: seq<Chunk>, end: StreamEvent, id: string, model: string)
    requires json.Valid() && end.IsTerminator()
    ensures var h := HearLines(json, SILENCE, Lines(Concat(Sent(json, Events(Pieces(chunks) + [end]), id, model))));
      (h.chunks == chunks && StreamEnd(h.finishReason, h.usage) == end) <==>
        end.StreamEnd? && end.finishReason != "" && end.usage.None? && IsPlain(chunks)
  {
    RoundTrip(json, chunks, end, id, model);
    RenumberedIsSameIff(chunks, 0);
    assert IsPlain(chunks) <==> IsPlainFrom(chunks, 0);
  }
}

/** One request, three renderings, one answer: from the channel that the collecting and the streaming path
    read, and from the job that copied it. */
module OneAnswer {
  import opened Types
  import opened Requests
  import opened EngineModel
  import opened JobModel
  import opened JobInvariant
  import opened Renderings
  import opened EventStream
  import JobAnswers
  import JobTheorems

  lemma {:induction false} RenumberedKeepsText(chunks: seq<Chunk>, from: nat)
    ensures Join(Texts(Renumbered(chunks, from))) == Join(Texts(chunks))
    decreases |chunks|
  {
    if chunks != [] {
      var text := chunks[0].text;
      assert Texts(chunks)[1..] == Texts(chunks[1..]);
      if text == "" {
        RenumberedKeepsText(chunks[1..], from);
      } else {
        RenumberedKeepsText(chunks[1..], from + 1);
        var renumbered := Renumbered(chunks, from);
        assert renumbered[1..] == Renumbered(chunks[1..], from + 1);
        assert Texts(renumbered)[1..] == Texts(renumbered[1..]);
      }
    }
  }

  /** What a client makes of a finished stream that it reads off the wire. */
  lemma StreamIsRead(
    json: Json, channel: seq<StreamEvent>, chunks: seq<Chunk>, end: StreamEvent, id: string, model: string)
    requires json.Valid() && end.IsTerminator() && channel == Pieces(chunks) + [end]
    ensures var wire := Concat(Sent(json, Events(channel), id, model));
      var h := HearLines(json, SILENCE, Lines(wire));
      && Join(Texts(h.chunks)) == Join(Texts(chunks))
      && (end.StreamEnd? && end.finishReason != "" ==> h.finishReason == end.finishReason)
      && wire == Concat(Frames(json, Payloads(id, model, chunks, end))) + Frame(DONE)
  {
    RoundTrip(json, chunks, end, id, model);
    SentIsPayloads(json, chunks, end, id, model);
    RenumberedKeepsText(chunks, 0);
  }

  /** The answers that the three renderings of a finished request give. */
  ghost predicate Agree(json: Json, channel: seq<StreamEvent>, job: Job, request: Request,
                        requestId: string, model: string, promptTokens: nat)
    requires job.terminal.Some? && job.terminal.value.IsTerminator()
  {
    var end, id := job.terminal.value, CompletionId(requestId);
    var reply := ReplyTo(Events(channel), requestId, promptTokens);
    var document := DocumentOf(job, request, requestId, promptTokens);
    var frames := Sent(json, Events(channel), id, model);
    var h := HearLines(json, SILENCE, Lines(Concat(frames)));
    if end.StreamEnd? then
      && reply.Completion? && document == Answer(reply.response) && reply.response.id == id
      && Join(Texts(h.chunks)) == reply.response.text && reply.response.finishReason == end.finishReason
      && (end.finishReason != "" ==> h.finishReason == reply.response.finishReason)
      && frames[|frames| - 2..] ==
           [Frame(json.encode(Delta(id, model, Choice(None, None, Some(end.finishReason))))), Frame(DONE)]
    else
      && reply == Failure(end.statusCode, end.message) && document == Refusal(end.message)
      && frames[|frames| - 2..] == [Frame(json.encode(Problem(end.message))), Frame(DONE)]
  }

  /** Once a job has recorded how its request ended, the three renderings give the same answer: the job
      document and the reply collected from the request's channel are the same response, id and token
      counts included; and what is streamed from that channel reads back, line by line, as the same text,
      under the same id, with the same finish reason unless that is empty. Or all three report the same
      error. */
  lemma OneAnswerThreeRenderings(
    c: AppConfig, config: JobsConfig, w: World, k: nat, json: Json, requestId: string, model: string, promptTokens: nat)
    requires c.Valid() && config.Valid() && JobTheorems.Happens(c, config, w) && k < |w.store.jobs|
    requires w.store.jobs[k].terminal.Some? && json.Valid()
    ensures JobModel.Sound(c, w) && w.store.jobs[k].terminal.value.IsTerminator()
    ensures var job := w.store.jobs[k];
      var request := w.engine.reqs[job.id];
      Agree(json, request.channel, job, request, requestId, model, promptTokens)
  {
    JobAnswers.RecordedIsComplete(c, config, w, k);
    JobTheorems.HappensOk(c, config, w);
    var job := w.store.jobs[k];
    assert RetainedOk(config, w, k);
    Agreement(json, job, w.engine.reqs[job.id], requestId, model, promptTokens);
  }

  lemma Agreement(json: Json, job: Job, request: Request, requestId: string, model: string, promptTokens: nat)
    requires json.Valid() && job.terminal.Some? && job.terminal.value.IsTerminator()
    requires Pieces(job.chunks) + [job.terminal.value] == request.channel
    ensures Agree(json, request.channel, job, request, requestId, model, promptTokens)
  {
    var end := job.terminal.value;
    ReplyToFinished(job.chunks, end, requestId, promptTokens);
    StreamIsRead(json, request.channel, job.chunks, end, CompletionId(requestId), model);
    LeadingTaken(Events(request.channel), |job.chunks|);
  }
}

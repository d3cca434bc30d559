/** Requests: the record that queues, engine and job store update in place, and its value. */
module Requests {
  import opened Types

  /** The value of a request. `channel` is everything ever put on its event channel; `produced` is what
      the backend has yielded for it; `cancelRequested` says that its serving task was told to stop. */
  datatype Request = Request(
    model: ModelName,
    enqueuedAt: real,
    cancelled: bool,
    state: RequestState,
    startedAt: Option<real>,
    finishedAt: Option<real>,
    channel: seq<StreamEvent>,
    produced: seq<Chunk>,
    cancelRequested: bool)

  function Fresh(model: ModelName, enqueuedAt: real): Request {
    Request(model, enqueuedAt, false, Queued, None, None, [], [], false)
  }

  function Ended(r: Request, state: RequestState, terminator: seq<StreamEvent>, now: real): Request {
    r.(state := state, channel := r.channel + terminator, finishedAt := Some(now))
  }

  /** A chunk reaches a serving task: forwarded, unless the client has gone. */
  function Received(r: Request, chunk: Chunk, now: real): Request {
    var heard := r.(produced := r.produced + [chunk]);
    if heard.cancelled then Ended(heard, Cancelled, [], now) else heard.(channel := heard.channel + [Piece(chunk)])
  }

  /** A stream is over: completed, unless the client has gone. */
  function Completed(r: Request, end: StreamEvent, now: real): Request {
    if r.cancelled then Ended(r, Cancelled, [], now) else Ended(r, Done, [end], now)
  }

  /** The record itself. Its `id` is its place in the order of submission. */
  class QueuedRequest {
    ghost const id: nat
    const model: ModelName
    const enqueuedAt: real
    var cancelled: bool
    var state: RequestState
    var startedAt: Option<real>
    var finishedAt: Option<real>
    var channel: seq<StreamEvent>
    ghost var produced: seq<Chunk>
    var cancelRequested: bool

    constructor (ghost id: nat, model: ModelName, enqueuedAt: real)
      ensures this.id == id && Value() == Fresh(model, enqueuedAt)
    {
      this.id, this.model, this.enqueuedAt := id, model, enqueuedAt;
      cancelled, state, startedAt, finishedAt := false, Queued, None, None;
      channel, produced, cancelRequested := [], [], false;
    }

    /** The client goes away. */
    method Cancel(ghost all: seq<QueuedRequest>)
      requires Indexed(all) && id < |all| && all[id] == this
      modifies this`cancelled
      ensures Values(all) == old(Values(all))[id := old(Value()).(cancelled := true)]
    {
      ghost var before := Values(all);
      cancelled := true;
      OneChanged(all, before, this);
    }

    /** Set aside as cancelled while still queued. */
    method Drop(ghost all: seq<QueuedRequest>)
      requires Indexed(all) && id < |all| && all[id] == this
      modifies this`state
      ensures Values(all) == old(Values(all))[id := old(Value()).(state := Cancelled)]
    {
      ghost var before := Values(all);
      state := Cancelled;
      OneChanged(all, before, this);
    }

    /** Handed to a backend. */
    method Start(now: real, ghost all: seq<QueuedRequest>)
      requires Indexed(all) && id < |all| && all[id] == this
      modifies this`state, this`startedAt
      ensures Values(all) == old(Values(all))[id := old(Value()).(state := Running, startedAt := Some(now))]
    {
      ghost var before := Values(all);
      state := Running;
      startedAt := Some(now);
      OneChanged(all, before, this);
    }

    /** Turned away before it was ever served. */
    method Refuse(notice: StreamEvent, ghost all: seq<QueuedRequest>)
      requires Indexed(all) && id < |all| && all[id] == this
      modifies this`state, this`channel
      ensures Values(all) == old(Values(all))[id := old(Value()).(state := Cancelled, channel := old(channel) + [notice])]
    {
      ghost var before := Values(all);
      state := Cancelled;
      channel := channel + [notice];
      OneChanged(all, before, this);
    }

    /** The serving task is told to stop. */
    method Tell(ghost all: seq<QueuedRequest>)
      requires Indexed(all) && id < |all| && all[id] == this
      modifies this`cancelRequested
      ensures Values(all) == old(Values(all))[id := old(Value()).(cancelRequested := true)]
    {
      ghost var before := Values(all);
      cancelRequested := true;
      OneChanged(all, before, this);
    }

    /** The serving task is over. */
    method End(state: RequestState, terminator: seq<StreamEvent>, now: real, ghost all: seq<QueuedRequest>)
      requires Indexed(all) && id < |all| && all[id] == this
      modifies this`state, this`channel, this`finishedAt
      ensures Values(all) == old(Values(all))[id := Ended(old(Value()), state, terminator, now)]
    {
      ghost var before := Values(all);
      this.state := state;
      channel := channel + terminator;
      finishedAt := Some(now);
      OneChanged(all, before, this);
    }

    method Receive(chunk: Chunk, now: real, ghost all: seq<QueuedRequest>)
      requires Indexed(all) && id < |all| && all[id] == this
      modifies this
      ensures Values(all) == old(Values(all))[id := Received(old(Value()), chunk, now)]
    {
      ghost var before := Values(all);
      produced := produced + [chunk];
      if cancelled {
        End(Cancelled, [], now, all);
      } else {
        channel := channel + [Piece(chunk)];
      }
      OneChanged(all, before, this);
    }

    method Complete(end: StreamEvent, now: real, ghost all: seq<QueuedRequest>)
      requires Indexed(all) && id < |all| && all[id] == this
      modifies this`state, this`channel, this`finishedAt
      ensures Values(all) == old(Values(all))[id := Completed(old(Value()), end, now)]
    {
      if cancelled {
        End(Cancelled, [], now, all);
      } else {
        End(Done, [end], now, all);
      }
    }

    ghost function Value(): Request
      reads this
    {
      Request(model, enqueuedAt, cancelled, state, startedAt, finishedAt, channel, produced, cancelRequested)
    }
  }

  /** All requests ever submitted, in order of submission. */
  ghost predicate Indexed(all: seq<QueuedRequest>) {
    forall i :: 0 <= i < |all| ==> all[i].id == i
  }

  ghost function Values(all: seq<QueuedRequest>): (values: seq<Request>)
    reads all
    ensures |values| == |all|
    ensures forall i :: 0 <= i < |all| ==> values[i] == all[i].Value()
  {
    seq(|all|, i requires 0 <= i < |all| reads all => all[i].Value())
  }

  ghost function Ids(requests: seq<QueuedRequest>): (ids: seq<nat>)
    ensures |ids| == |requests|
    ensures forall i :: 0 <= i < |requests| ==> ids[i] == requests[i].id
  {
    seq(|requests|, i requires 0 <= i < |requests| => requests[i].id)
  }

  /** Every listed request is one of those submitted. */
  ghost predicate Among(requests: seq<QueuedRequest>, all: seq<QueuedRequest>) {
    forall k :: 0 <= k < |requests| ==> requests[k].id < |all| && all[requests[k].id] == requests[k]
  }

  /** After one request changed, the values are the earlier ones but for that request. */
  lemma OneChanged(all: seq<QueuedRequest>, before: seq<Request>, request: QueuedRequest)
    requires Indexed(all) && |before| == |all|
    requires request.id < |all| && all[request.id] == request
    requires forall i :: 0 <= i < |all| && all[i] != request ==> all[i].Value() == before[i]
    ensures Values(all) == before[request.id := request.Value()]
  {
    assert forall i :: 0 <= i < |all| && i != request.id ==> all[i] != request;
  }
}

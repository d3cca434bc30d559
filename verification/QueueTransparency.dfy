/** Cancelled requests are as if never enqueued. The queues keep a cancelled entry until something pops
    or purges it; here a second, ideal set of queues forgets an entry the moment its client cancels, and
    no sequence of calls can tell the two apart. */
module QueueTransparency {
  import opened Types
  import opened Requests
  import opened QueueSpec

  datatype Call =
    | Enqueue(model: ModelName, at: real)
    | Cancel(id: nat)
    | Purge
    | Pop(model: ModelName, now: real)
    | Take(model: ModelName, now: real, limit: int)
    | AskDepth(model: ModelName)
    | AskOldest(model: ModelName)
    | AskPosition(id: nat)

  datatype Answer =
    | Accepted
    | UnknownModel
    | Got(ids: seq<nat>)
    | Count(n: nat)
    | Since(at: Option<real>)
    | Place(position: Option<nat>)

  // ------------------------------------------------------------------ the queues as they are

  datatype Actual = Actual(reqs: Table, queues: Queues)
  {
    /** Each queue lists requests of its own model in order of submission. */
    ghost predicate Valid() {
      forall m :: m in queues ==> Ordered(reqs, m, queues[m])
    }

    function Call(c: Call): (r: (Actual, Answer))
      requires Valid()
    {
      match c
      case Enqueue(m, at) =>
        if m !in queues then (this, UnknownModel)
        else (Actual(reqs + [Fresh(m, at)], queues[m := queues[m] + [|reqs|]]), Accepted)
      case Cancel(id) =>
        if id >= |reqs| then (this, Accepted)
        else (this.(reqs := reqs[id := reqs[id].(cancelled := true)]), Accepted)
      case Purge =>
        (Actual(PurgedTable(reqs, queues), PurgedQueues(reqs, queues)), Accepted)
      case Pop(m, now) =>
        if m !in queues then (this, UnknownModel)
        else
          var p := NextFor(reqs, queues[m], now);
          (Actual(p.reqs, queues[m := p.rest]), Got(Opt(p.id)))
      case Take(m, now, limit) =>
        if m !in queues then (this, UnknownModel)
        else
          var b := TakeWhile(reqs, queues[m], now, limit);
          (Actual(b.reqs, queues[m := b.rest]), Got(b.ids))
      case AskDepth(m) =>
        (this, if m in queues then Count(Depth(reqs, queues[m])) else UnknownModel)
      case AskOldest(m) =>
        (this, if m in queues then Since(Oldest(reqs, queues[m])) else UnknownModel)
      case AskPosition(id) =>
        (this, Place(if id < |reqs| && reqs[id].model in queues
                     then PositionOf(reqs, queues[reqs[id].model], id) else None))
    }
  }

  // ------------------------------------------------------------------ queues without cancelled entries

  datatype Meta = Meta(model: ModelName, at: real)

  function IndexOf(q: seq<nat>, id: nat): Option<nat> {
    if q == [] then None
    else if q[0] == id then Some(0)
    else
      var behind := IndexOf(q[1..], id);
      if behind.None? then None else Some(behind.value + 1)
  }

  datatype Ideal = Ideal(metas: seq<Meta>, queues: Queues)
  {
    predicate Valid() {
      forall m :: m in queues ==> forall id :: id in queues[m] ==> id < |metas|
    }

    function Call(c: Call): (Ideal, Answer)
      requires Valid()
    {
      match c
      case Enqueue(m, at) =>
        if m !in queues then (this, UnknownModel)
        else (Ideal(metas + [Meta(m, at)], queues[m := queues[m] + [|metas|]]), Accepted)
      case Cancel(id) =>
        if id >= |metas| || metas[id].model !in queues then (this, Accepted)
        else (this.(queues := queues[metas[id].model := Without(queues[metas[id].model], id)]), Accepted)
      case Purge =>
        (this, Accepted)
      case Pop(m, _) =>
        if m !in queues then (this, UnknownModel) else TakeUpTo(m, 1)
      case Take(m, _, limit) =>
        if m !in queues then (this, UnknownModel) else TakeUpTo(m, limit)
      case AskDepth(m) =>
        (this, if m in queues then Count(|queues[m]|) else UnknownModel)
      case AskOldest(m) =>
        (this, if m !in queues then UnknownModel
               else if queues[m] == [] then Since(None)
               else assert queues[m][0] in queues[m]; Since(Some(metas[queues[m][0]].at)))
      case AskPosition(id) =>
        (this, Place(if id < |metas| && metas[id].model in queues
                     then IndexOf(queues[metas[id].model], id) else None))
    }

    function TakeUpTo(m: ModelName, limit: int): (Ideal, Answer)
      requires m in queues
    {
      var n := Served(queues[m], limit);
      (this.(queues := queues[m := queues[m][n..]]), Got(queues[m][..n]))
    }
  }

  // ------------------------------------------------------------------ they agree

  ghost predicate SameQueue(a: Actual, i: Ideal, m: ModelName)
    requires m in a.queues
  {
    Within(a.queues[m], a.reqs) && m in i.queues && i.queues[m] == Live(a.reqs, a.queues[m])
  }

  ghost predicate Agree(a: Actual, i: Ideal) {
    && a.Valid() && i.Valid()
    && |a.reqs| == |i.metas|
    && (forall k :: 0 <= k < |a.reqs| ==> i.metas[k] == Meta(a.reqs[k].model, a.reqs[k].enqueuedAt))
    && a.queues.Keys == i.queues.Keys
    && (forall m :: m in a.queues ==> SameQueue(a, i, m))
  }

  /** Asking where a request stands only makes sense while its client is there. */
  predicate Sensible(a: Actual, c: Call) {
    c.AskPosition? && c.id < |a.reqs| ==> !a.reqs[c.id].cancelled
  }

  /** One call: the two sets of queues stay in agreement and, for a sensible call, answer alike. */
  lemma CallAgrees(a: Actual, i: Ideal, c: Call)
    requires Agree(a, i)
    ensures Agree(a.Call(c).0, i.Call(c).0)
    ensures Sensible(a, c) ==> a.Call(c).1 == i.Call(c).1
  {
    match c
    case Enqueue(m, at) => if m in a.queues { EnqueueAgrees(a, i, m, at); }
    case Cancel(id) => if id < |a.reqs| { CancelAgrees(a, i, id); }
    case Purge => PurgeAgrees(a, i);
    case Pop(m, now) => if m in a.queues { PopAgrees(a, i, m, now); }
    case Take(m, now, limit) => if m in a.queues { TakeAgrees(a, i, m, now, limit); }
    case _ => QueryAgrees(a, i, c);
  }

  lemma QueryAgrees(a: Actual, i: Ideal, c: Call)
    requires Agree(a, i) && (c.AskDepth? || c.AskOldest? || c.AskPosition?)
    ensures a.Call(c).0 == a && i.Call(c).0 == i
    ensures Sensible(a, c) ==> a.Call(c).1 == i.Call(c).1
  {
    if c.AskPosition? {
      if c.id < |a.reqs| && a.reqs[c.id].model in a.queues && !a.reqs[c.id].cancelled {
        assert SameQueue(a, i, a.reqs[c.id].model);
        PositionIsIndex(a.reqs, a.queues[a.reqs[c.id].model], c.id);
      }
    } else {
      assert c.model in a.queues ==> SameQueue(a, i, c.model);
    }
  }

  /** Every sequence of calls, from any pair in agreement: if each position query is about a request not
      cancelled by then, all answers are those of queues that never held a cancelled request. */
  lemma {:induction false} CancelledAsIfNeverEnqueued(a: Actual, i: Ideal, calls: seq<Call>)
    requires Agree(a, i)
    requires AllSensible(a, calls)
    ensures Answers(a, calls) == IdealAnswers(i, calls)
    decreases calls
  {
    if calls != [] {
      CallAgrees(a, i, calls[0]);
      CancelledAsIfNeverEnqueued(a.Call(calls[0]).0, i.Call(calls[0]).0, calls[1..]);
    }
  }

  ghost predicate AllSensible(a: Actual, calls: seq<Call>)
    requires a.Valid()
    decreases calls
  {
    calls != [] ==>
      && Sensible(a, calls[0])
      && a.Call(calls[0]).0.Valid()
      && AllSensible(a.Call(calls[0]).0, calls[1..])
  }

  ghost function Answers(a: Actual, calls: seq<Call>): seq<Answer>
    requires a.Valid() && AllSensible(a, calls)
    decreases calls
  {
    if calls == [] then [] else [a.Call(calls[0]).1] + Answers(a.Call(calls[0]).0, calls[1..])
  }

  ghost function IdealAnswers(i: Ideal, calls: seq<Call>): seq<Answer>
    decreases calls
  {
    if calls == [] || !i.Valid() then [] else [i.Call(calls[0]).1] + IdealAnswers(i.Call(calls[0]).0, calls[1..])
  }

  /** New queues, before any call. */
  lemma NewQueuesAgree(names: set<ModelName>)
    ensures Agree(Actual([], map m | m in names :: []), Ideal([], map m | m in names :: []))
  {
    var a, i := Actual([], map m | m in names :: []), Ideal([], map m | m in names :: []);
    forall m | m in a.queues ensures SameQueue(a, i, m) {
      assert Live(a.reqs, a.queues[m]) == [];
    }
  }

  /** The one query that can tell. Whatever calls were made before, enqueue a request and cancel it: asked for
      its position, the queues still count the live entries ahead of it, where the ideal ones know of no
      such request. */
  lemma CancelledCanSeeItself(a: Actual, i: Ideal, m: ModelName, at: real)
    requires Agree(a, i) && m in a.queues
    ensures var id := |a.reqs|;
      var b, j := a.Call(Enqueue(m, at)).0, i.Call(Enqueue(m, at)).0;
      && Agree(b, j)
      && var c, k := b.Call(Cancel(id)).0, j.Call(Cancel(id)).0;
      && Agree(c, k)
      && SameQueue(a, i, m)
      && c.Call(AskPosition(id)).1 == Place(Some(Depth(a.reqs, a.queues[m])))
      && k.Call(AskPosition(id)).1 == Place(None)
  {
    CallAgrees(a, i, Enqueue(m, at));
    CallAgrees(a.Call(Enqueue(m, at)).0, i.Call(Enqueue(m, at)).0, Cancel(|a.reqs|));
    CancelledIsFound(a, m, at);
    CancelledIsForgotten(i, m, at);
    assert SameQueue(a, i, m);
  }

  lemma CancelledIsFound(a: Actual, m: ModelName, at: real)
    requires a.Valid() && m in a.queues
    ensures Within(a.queues[m], a.reqs)
    ensures var b := a.Call(Enqueue(m, at)).0;
      b.Valid() && b.Call(Cancel(|a.reqs|)).0.Valid()
      && b.Call(Cancel(|a.reqs|)).0.Call(AskPosition(|a.reqs|)).1 == Place(Some(Depth(a.reqs, a.queues[m])))
  {
    var id, q := |a.reqs|, a.queues[m];
    assert Ordered(a.reqs, m, q) && id !in q;
    var b := a.Call(Enqueue(m, at)).0;
    forall n | n in b.queues ensures Ordered(b.reqs, n, b.queues[n]) {
      assert Ordered(a.reqs, n, a.queues[n]);
      EnqueuedIsLast(a.reqs, b.reqs, a.queues[n], n, m, at);
    }
    var c := b.Call(Cancel(id)).0;
    assert c.queues[m] == q + [id];
    PositionAtEnd(c.reqs, q, id);
    LiveOfSameFlags(a.reqs, c.reqs, q);
  }

  lemma CancelledIsForgotten(i: Ideal, m: ModelName, at: real)
    requires i.Valid() && m in i.queues
    ensures var j := i.Call(Enqueue(m, at)).0;
      j.Valid() && j.Call(Cancel(|i.metas|)).0.Valid()
      && j.Call(Cancel(|i.metas|)).0.Call(AskPosition(|i.metas|)).1 == Place(None)
  {
    var j := i.Call(Enqueue(m, at)).0;
    WithoutForgets(j.queues[m], |i.metas|);
  }

  lemma {:induction false} PositionAtEnd(reqs: Table, q: seq<nat>, id: nat)
    requires Within(q, reqs) && id < |reqs| && id !in q
    ensures Within(q + [id], reqs) && PositionOf(reqs, q + [id], id) == Some(Depth(reqs, q))
  {
    if q != [] {
      assert (q + [id])[0] == q[0] && (q + [id])[1..] == q[1..] + [id];
      PositionAtEnd(reqs, q[1..], id);
    }
  }

  lemma {:induction false} WithoutForgets(q: seq<nat>, id: nat)
    ensures IndexOf(Without(q, id), id) == None
  {
    if q != [] {
      WithoutForgets(q[1..], id);
    }
  }

  // ------------------------------------------------------------------ call by call

  lemma EnqueueAgrees(a: Actual, i: Ideal, m: ModelName, at: real)
    requires Agree(a, i) && m in a.queues
    ensures Agree(a.Call(Enqueue(m, at)).0, i.Call(Enqueue(m, at)).0)
  {
    var a', i' := a.Call(Enqueue(m, at)).0, i.Call(Enqueue(m, at)).0;
    forall n | n in a'.queues ensures Ordered(a'.reqs, n, a'.queues[n]) && SameQueue(a', i', n) {
      assert Ordered(a.reqs, n, a.queues[n]) && SameQueue(a, i, n);
      EnqueuedIsLast(a.reqs, a'.reqs, a.queues[n], n, m, at);
    }
  }

  /** What an arrival for `m` does to the queue of `n`. */
  lemma EnqueuedIsLast(reqs: Table, after: Table, q: seq<nat>, n: ModelName, m: ModelName, at: real)
    requires Ordered(reqs, n, q) && after == reqs + [Fresh(m, at)]
    ensures Ordered(after, n, q) && Live(after, q) == Live(reqs, q)
    ensures n == m ==> Ordered(after, n, q + [|reqs|]) && Live(after, q + [|reqs|]) == Live(reqs, q) + [|reqs|]
  {
    LiveOfSameFlags(reqs, after, q);
    LiveOfAppended(after, q, |reqs|);
  }

  lemma CancelAgrees(a: Actual, i: Ideal, id: nat)
    requires Agree(a, i) && id < |a.reqs|
    ensures Agree(a.Call(Cancel(id)).0, i.Call(Cancel(id)).0)
  {
    var a' := a.Call(Cancel(id)).0;
    var i' := i.Call(Cancel(id)).0;
    assert a'.Valid();
    forall n | n in a'.queues ensures SameQueue(a', i', n) {
      assert SameQueue(a, i, n);
      if n == a.reqs[id].model {
        LiveAfterCancel(a.reqs, a.queues[n], id);
      } else {
        LiveOfSameFlags(a.reqs, a'.reqs, a.queues[n]);
      }
    }
  }

  lemma PurgeAgrees(a: Actual, i: Ideal)
    requires Agree(a, i)
    ensures Agree(a.Call(Purge).0, i)
  {
    var a' := a.Call(Purge).0;
    forall n | n in a'.queues ensures Ordered(a'.reqs, n, a'.queues[n]) && SameQueue(a', i, n) {
      assert Ordered(a.reqs, n, a.queues[n]) && SameQueue(a, i, n);
      PurgeKeepsLive(a.reqs, a'.reqs, n, a.queues[n]);
    }
  }

  lemma PopAgrees(a: Actual, i: Ideal, m: ModelName, now: real)
    requires Agree(a, i) && m in a.queues
    ensures Agree(a.Call(Pop(m, now)).0, i.Call(Pop(m, now)).0)
    ensures a.Call(Pop(m, now)).1 == i.Call(Pop(m, now)).1
  {
    PopIsTakeOne(a.reqs, a.queues[m], now);
    TakeAgrees(a, i, m, now, 1);
  }

  lemma PopIsTakeOne(reqs: Table, q: seq<nat>, now: real)
    requires Within(q, reqs)
    ensures var p, b := NextFor(reqs, q, now), TakeWhile(reqs, q, now, 1);
      b == Batch(p.reqs, p.rest, Opt(p.id))
  {
    var p := NextFor(reqs, q, now);
    if p.id.Some? {
      assert TakeWhile(p.reqs, p.rest, now, 0) == Batch(p.reqs, p.rest, []);
      assert [p.id.value] + [] == [p.id.value];
    }
  }

  lemma TakeAgrees(a: Actual, i: Ideal, m: ModelName, now: real, limit: int)
    requires Agree(a, i) && m in a.queues
    ensures Agree(a.Call(Take(m, now, limit)).0, i.Call(Take(m, now, limit)).0)
    ensures a.Call(Take(m, now, limit)).1 == i.Call(Take(m, now, limit)).1
  {
    var b := TakeWhile(a.reqs, a.queues[m], now, limit);
    var a' := a.Call(Take(m, now, limit)).0;
    var i' := i.Call(Take(m, now, limit)).0;
    assert Ordered(a.reqs, m, a.queues[m]) && SameQueue(a, i, m);
    TakeWhileServesPrefix(a.reqs, a.queues[m], now, limit);
    TakeWhileKeepsOrder(a.reqs, a.queues[m], now, limit);
    TakeWhileTouches(a.reqs, a.queues[m], now, limit);
    forall k: nat | k < |a.reqs|
      ensures a'.reqs[k].model == a.reqs[k].model && a'.reqs[k].enqueuedAt == a.reqs[k].enqueuedAt
           && a'.reqs[k].cancelled == a.reqs[k].cancelled {
      assert Popped1(a.reqs, b.reqs, a.queues[m], b.rest, b.ids, now, k);
    }
    forall n | n in a'.queues ensures Ordered(a'.reqs, n, a'.queues[n]) && SameQueue(a', i', n) {
      assert Ordered(a.reqs, n, a.queues[n]) && SameQueue(a, i, n);
      if n != m {
        LiveOfSameFlags(a.reqs, a'.reqs, a.queues[n]);
      }
    }
  }

  lemma {:induction false} PositionIsIndex(reqs: Table, q: seq<nat>, id: nat)
    requires Within(q, reqs)
    requires id < |reqs| && !reqs[id].cancelled
    ensures PositionOf(reqs, q, id) == IndexOf(Live(reqs, q), id)
  {
    if q != [] {
      var live, rest := Live(reqs, q), Live(reqs, q[1..]);
      assert !reqs[q[0]].cancelled ==> live[0] == q[0] && live[1..] == rest;
      if q[0] != id {
        PositionIsIndex(reqs, q[1..], id);
      }
    }
  }
}

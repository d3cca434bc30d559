/** What the per-model queues compute, on values: a queue is a sequence of indices into the table of
    requests. Cancelled entries may linger in a queue; nothing may depend on them. */
module QueueSpec {
  import opened Types
  import opened Requests

  type Table = seq<Request>

  predicate Within(q: seq<nat>, reqs: Table) {
    forall k :: 0 <= k < |q| ==> q[k] < |reqs|
  }

  predicate Increasing(q: seq<nat>) {
    forall j, k :: 0 <= j < k < |q| ==> q[j] < q[k]
  }

  /** The entries that count: those whose client is still there. */
  function Live(reqs: Table, q: seq<nat>): (live: seq<nat>)
    requires Within(q, reqs)
    ensures Within(live, reqs)
  {
    if q == [] then []
    else if reqs[q[0]].cancelled then Live(reqs, q[1..])
    else [q[0]] + Live(reqs, q[1..])
  }

  function Depth(reqs: Table, q: seq<nat>): nat
    requires Within(q, reqs)
  {
    |Live(reqs, q)|
  }

  function Oldest(reqs: Table, q: seq<nat>): Option<real>
    requires Within(q, reqs)
  {
    var live := Live(reqs, q);
    if live == [] then None else Some(reqs[live[0]].enqueuedAt)
  }

  /** How many live entries stand before `id`; None once it is gone from the queue. */
  function PositionOf(reqs: Table, q: seq<nat>, id: nat): Option<nat>
    requires Within(q, reqs)
  {
    if q == [] then None
    else if q[0] == id then Some(0)
    else
      var behind := PositionOf(reqs, q[1..], id);
      if behind.None? then None
      else Some(behind.value + if reqs[q[0]].cancelled then 0 else 1)
  }

  datatype Popped = Popped(reqs: Table, rest: seq<nat>, id: Option<nat>)

  /** Pop the oldest live entry and start it, marking cancelled entries on the way. */
  function NextFor(reqs: Table, q: seq<nat>, now: real): (p: Popped)
    requires Within(q, reqs)
    ensures |p.reqs| == |reqs| && Within(p.rest, reqs)
    ensures p.id.Some? ==> p.id.value in q
    decreases q
  {
    if q == [] then Popped(reqs, [], None)
    else if reqs[q[0]].cancelled then
      NextFor(reqs[q[0] := reqs[q[0]].(state := Cancelled)], q[1..], now)
    else
      Popped(reqs[q[0] := Started(reqs[q[0]], now)], q[1..], Some(q[0]))
  }

  function Started(r: Request, now: real): Request {
    r.(state := Running, startedAt := Some(now))
  }

  /** What popping does to one request: it is started, or dropped as cancelled, or left alone. */
  function AfterPop(r: Request, started: bool, gone: bool, now: real): Request {
    if started then Started(r, now) else if gone then r.(state := Cancelled) else r
  }

  datatype Batch = Batch(reqs: Table, rest: seq<nat>, ids: seq<nat>)

  /** Pop up to `limit` live entries. */
  function TakeWhile(reqs: Table, q: seq<nat>, now: real, limit: int): (b: Batch)
    requires Within(q, reqs)
    ensures |b.reqs| == |reqs| && Within(b.rest, reqs) && Within(b.ids, reqs)
    decreases limit
  {
    if limit <= 0 then Batch(reqs, q, [])
    else
      var p := NextFor(reqs, q, now);
      if p.id.None? then Batch(p.reqs, p.rest, [])
      else
        var b := TakeWhile(p.reqs, p.rest, now, limit - 1);
        Batch(b.reqs, b.rest, [p.id.value] + b.ids)
  }

  /** The cancelled entries of a queue. */
  function Dead(reqs: Table, q: seq<nat>): seq<nat>
    requires Within(q, reqs)
  {
    if q == [] then []
    else if reqs[q[0]].cancelled then [q[0]] + Dead(reqs, q[1..])
    else Dead(reqs, q[1..])
  }

  type Queues = map<ModelName, seq<nat>>

  predicate AllWithin(queues: Queues, reqs: Table) {
    forall m :: m in queues ==> Within(queues[m], reqs)
  }

  /** Cancelled, and still sitting in its model's queue. */
  predicate IsDead(reqs: Table, queues: Queues, i: nat)
    requires i < |reqs|
  {
    reqs[i].cancelled && reqs[i].model in queues && i in queues[reqs[i].model]
  }

  function PurgedTable(reqs: Table, queues: Queues): (r: Table)
    ensures |r| == |reqs|
    ensures forall i :: 0 <= i < |reqs| ==>
      r[i] == if IsDead(reqs, queues, i) then reqs[i].(state := Cancelled) else reqs[i]
  {
    seq(|reqs|, i requires 0 <= i < |reqs| =>
      if IsDead(reqs, queues, i) then reqs[i].(state := Cancelled) else reqs[i])
  }

  function PurgedQueues(reqs: Table, queues: Queues): (r: Queues)
    requires AllWithin(queues, reqs)
    ensures r.Keys == queues.Keys
    ensures AllWithin(r, reqs)
  {
    map m | m in queues :: Live(reqs, queues[m])
  }

  /** A queue lists requests of its own model in order of submission. */
  ghost predicate Ordered(reqs: Table, m: ModelName, q: seq<nat>) {
    Within(q, reqs) && Increasing(q) && forall id :: id in q ==> reqs[id].model == m
  }

  /** What a purge removes, queue by queue in the order of the models' names. */
  function Removed(reqs: Table, queues: Queues, names: seq<ModelName>): seq<nat>
    requires AllWithin(queues, reqs)
  {
    if names == [] then []
    else (if names[0] in queues then Dead(reqs, queues[names[0]]) else []) + Removed(reqs, queues, names[1..])
  }

  // ------------------------------------------------------------------ laws of the filter

  lemma {:induction false} LiveMembers(reqs: Table, q: seq<nat>)
    requires Within(q, reqs)
    ensures forall id :: id in Live(reqs, q) <==> id in q && !reqs[id].cancelled
  {
    if q != [] {
      LiveMembers(reqs, q[1..]);
      assert q == [q[0]] + q[1..];
    }
  }

  lemma {:induction false} LiveOfSameFlags(reqs: Table, other: Table, q: seq<nat>)
    requires Within(q, reqs) && |other| >= |reqs|
    requires forall k :: 0 <= k < |q| ==> other[q[k]].cancelled == reqs[q[k]].cancelled
    ensures Live(other, q) == Live(reqs, q)
  {
    if q != [] {
      assert forall k :: 0 <= k < |q[1..]| ==> q[1..][k] == q[k + 1];
      LiveOfSameFlags(reqs, other, q[1..]);
    }
  }

  lemma IncreasingSplit(q: seq<nat>)
    requires Increasing(q) && q != []
    ensures Increasing(q[1..])
    ensures forall x :: x in q[1..] ==> q[0] < x
    ensures forall x :: x in q <==> x == q[0] || x in q[1..]
  {
    assert forall k :: 0 <= k < |q[1..]| ==> q[1..][k] == q[k + 1];
    assert q == [q[0]] + q[1..];
  }

  lemma {:induction false} LiveIsIncreasing(reqs: Table, q: seq<nat>)
    requires Within(q, reqs) && Increasing(q)
    ensures Increasing(Live(reqs, q))
  {
    if q != [] {
      IncreasingSplit(q);
      LiveIsIncreasing(reqs, q[1..]);
      LiveMembers(reqs, q[1..]);
      var tail := Live(reqs, q[1..]);
      forall k | 0 <= k < |tail| ensures q[0] < tail[k] {
        assert tail[k] in tail;
      }
    }
  }

  /** Arrivals in the order of submission, as a clock that never turns gives them. */
  ghost predicate InArrivalOrder(reqs: Table) {
    forall i, j :: 0 <= i < j < |reqs| ==> reqs[i].enqueuedAt <= reqs[j].enqueuedAt
  }

  /** Then the reported oldest arrival is some live entry's, and no live entry arrived before it. */
  lemma OldestIsEarliest(reqs: Table, q: seq<nat>)
    requires Within(q, reqs) && Increasing(q) && InArrivalOrder(reqs)
    ensures Oldest(reqs, q).None? <==> forall id :: id in q ==> reqs[id].cancelled
    ensures forall id :: id in q && !reqs[id].cancelled ==>
      Oldest(reqs, q).Some? && Oldest(reqs, q).value <= reqs[id].enqueuedAt
    ensures Oldest(reqs, q).Some? ==>
      exists id :: id in q && !reqs[id].cancelled && reqs[id].enqueuedAt == Oldest(reqs, q).value
  {
    var live := Live(reqs, q);
    LiveMembers(reqs, q);
    LiveIsIncreasing(reqs, q);
    if live != [] {
      assert live[0] in live;
      forall id | id in live ensures reqs[live[0]].enqueuedAt <= reqs[id].enqueuedAt {
        var k :| 0 <= k < |live| && live[k] == id;
      }
    } else {
      assert forall id :: id in q ==> id !in live;
    }
  }

  lemma {:induction false} LiveOfAppended(reqs: Table, q: seq<nat>, id: nat)
    requires Within(q, reqs) && id < |reqs|
    ensures Within(q + [id], reqs)
    ensures Live(reqs, q + [id]) == Live(reqs, q) + (if reqs[id].cancelled then [] else [id])
  {
    if q != [] {
      LiveOfAppended(reqs, q[1..], id);
      assert (q + [id])[1..] == q[1..] + [id];
    } else {
      assert ([id])[1..] == [];
    }
  }

  lemma {:induction false} LiveIsIdempotent(reqs: Table, q: seq<nat>)
    requires Within(q, reqs)
    ensures Live(reqs, Live(reqs, q)) == Live(reqs, q)
  {
    if q != [] {
      LiveIsIdempotent(reqs, q[1..]);
      if !reqs[q[0]].cancelled {
        assert Live(reqs, q)[1..] == Live(reqs, q[1..]);
      }
    }
  }

  /** Purging leaves a queue of live entries only, and they are the same live entries as before. */
  lemma PurgeKeepsLive(reqs: Table, after: Table, m: ModelName, q: seq<nat>)
    requires Ordered(reqs, m, q) && |after| == |reqs|
    requires forall i :: 0 <= i < |reqs| ==> after[i].model == reqs[i].model && after[i].cancelled == reqs[i].cancelled
    ensures Ordered(after, m, Live(reqs, q)) && Live(after, Live(reqs, q)) == Live(reqs, q)
  {
    LiveIsIncreasing(reqs, q);
    LiveMembers(reqs, q);
    LiveIsIdempotent(reqs, q);
    LiveOfSameFlags(reqs, after, Live(reqs, q));
  }

  /** Cancelling one request removes exactly it from the live entries. */
  function Without(q: seq<nat>, id: nat): (r: seq<nat>)
    ensures forall x :: x in r <==> x in q && x != id
  {
    if q == [] then []
    else if q[0] == id then Without(q[1..], id)
    else [q[0]] + Without(q[1..], id)
  }

  lemma {:induction false} LiveAfterCancel(reqs: Table, q: seq<nat>, id: nat)
    requires Within(q, reqs) && id < |reqs|
    ensures Live(reqs[id := reqs[id].(cancelled := true)], q) == Without(Live(reqs, q), id)
  {
    if q != [] {
      LiveAfterCancel(reqs, q[1..], id);
      if !reqs[q[0]].cancelled {
        assert Live(reqs, q)[1..] == Live(reqs, q[1..]);
      }
    }
  }

  lemma {:induction false} DeadMembers(reqs: Table, q: seq<nat>)
    requires Within(q, reqs)
    ensures forall id :: id in Dead(reqs, q) <==> id in q && reqs[id].cancelled
    ensures Increasing(q) ==> Increasing(Dead(reqs, q))
  {
    if q != [] {
      DeadMembers(reqs, q[1..]);
      assert q == [q[0]] + q[1..];
      if Increasing(q) {
        IncreasingSplit(q);
        DeadIsIncreasing(reqs, q);
      }
    }
  }

  lemma DeadIsIncreasing(reqs: Table, q: seq<nat>)
    requires Within(q, reqs) && q != [] && Increasing(Dead(reqs, q[1..]))
    requires forall id :: id in Dead(reqs, q[1..]) ==> q[0] < id
    ensures Increasing(Dead(reqs, q))
  {
    var tail := Dead(reqs, q[1..]);
    assert forall k :: 0 <= k < |tail| ==> tail[k] in tail;
  }

  /** A purge removes exactly the cancelled entries of the named queues, and one queue's after another's. */
  lemma {:induction false} RemovedAreDead(reqs: Table, queues: Queues, names: seq<ModelName>, more: seq<ModelName>)
    requires AllWithin(queues, reqs)
    ensures forall id: nat :: id in Removed(reqs, queues, names) <==>
      exists m: ModelName :: m in names && m in queues && id in queues[m] && reqs[id].cancelled
    ensures Removed(reqs, queues, names + more) == Removed(reqs, queues, names) + Removed(reqs, queues, more)
    decreases |names|
  {
    if names == [] {
      assert names + more == more;
    } else {
      var m, rest := names[0], names[1..];
      assert (names + more)[1..] == rest + more && names == [m] + rest;
      RemovedAreDead(reqs, queues, rest, more);
      if m in queues {
        DeadMembers(reqs, queues[m]);
      }
    }
  }

  // ------------------------------------------------------------------ popping

  /** `part` lists only entries of `whole`. */
  predicate IsPartOf(part: seq<nat>, whole: seq<nat>) {
    forall x :: x in part ==> x in whole
  }

  /** Everything in `first` was submitted before everything in `second`. */
  predicate Precedes(first: seq<nat>, second: seq<nat>) {
    forall x, y :: x in first && y in second ==> x < y
  }

  /** Popping keeps the order of what is left. */
  lemma {:induction false} NextForKeepsOrder(reqs: Table, q: seq<nat>, now: real)
    requires Within(q, reqs) && Increasing(q)
    ensures var p := NextFor(reqs, q, now);
      && Increasing(p.rest)
      && (forall x :: x in p.rest ==> x in q)
      && (p.id.Some? ==> forall x :: x in p.rest ==> p.id.value < x)
    decreases q
  {
    if q != [] {
      IncreasingSplit(q);
      if reqs[q[0]].cancelled {
        NextForKeepsOrder(reqs[q[0] := reqs[q[0]].(state := Cancelled)], q[1..], now);
      }
    }
  }

  /** Popping serves the head of the live entries and leaves the others, in order. */
  lemma {:induction false} NextForServesHead(reqs: Table, q: seq<nat>, now: real)
    requires Within(q, reqs) && Increasing(q)
    ensures var live, p := Live(reqs, q), NextFor(reqs, q, now);
      && (live == [] ==> p.id == None && p.rest == [])
      && (live != [] ==> p.id == Some(live[0]) && Live(p.reqs, p.rest) == live[1..])
    decreases q
  {
    if q != [] {
      IncreasingSplit(q);
      if reqs[q[0]].cancelled {
        var marked := reqs[q[0] := reqs[q[0]].(state := Cancelled)];
        LiveOfSameFlags(reqs, marked, q[1..]);
        NextForServesHead(marked, q[1..], now);
      } else {
        var p := NextFor(reqs, q, now);
        LiveOfSameFlags(reqs, p.reqs, q[1..]);
        assert Live(reqs, q)[1..] == Live(reqs, q[1..]);
      }
    }
  }

  /** The effect of popping on the whole table: `ids` were started, and of the other entries that left
      `q` each was cancelled and is marked so. Nothing else changed. */
  predicate OnlyPopped(reqs: Table, after: Table, q: seq<nat>, rest: seq<nat>, ids: seq<nat>, now: real) {
    |after| == |reqs| && forall i: nat :: i < |reqs| ==> Popped1(reqs, after, q, rest, ids, now, i)
  }

  predicate Popped1(reqs: Table, after: Table, q: seq<nat>, rest: seq<nat>, ids: seq<nat>, now: real, i: nat)
    requires i < |reqs| == |after|
  {
    && after[i] == AfterPop(reqs[i], i in ids, i in q && i !in rest, now)
    && (i in q && i !in rest && i !in ids ==> reqs[i].cancelled)
  }

  function Opt(id: Option<nat>): seq<nat> {
    if id.Some? then [id.value] else []
  }

  /** Popping touches no request but the one it starts and the cancelled ones it drops. */
  lemma {:induction false} NextForTouches(reqs: Table, q: seq<nat>, now: real)
    requires Within(q, reqs) && Increasing(q)
    ensures var p := NextFor(reqs, q, now); OnlyPopped(reqs, p.reqs, q, p.rest, Opt(p.id), now)
    decreases q
  {
    if q != [] {
      IncreasingSplit(q);
      if reqs[q[0]].cancelled {
        var marked := reqs[q[0] := reqs[q[0]].(state := Cancelled)];
        NextForTouches(marked, q[1..], now);
        NextForKeepsOrder(marked, q[1..], now);
        var p := NextFor(marked, q[1..], now);
        DropThenPop(reqs, marked, p.reqs, q, p.rest, Opt(p.id), now);
      }
    }
  }

  lemma DropThenPop(
    reqs: Table, marked: Table, after: Table, q: seq<nat>, rest: seq<nat>, ids: seq<nat>, now: real)
    requires Within(q, reqs) && Increasing(q) && q != [] && reqs[q[0]].cancelled
    requires marked == reqs[q[0] := reqs[q[0]].(state := Cancelled)]
    requires OnlyPopped(marked, after, q[1..], rest, ids, now)
    requires IsPartOf(rest, q[1..]) && IsPartOf(ids, q[1..])
    ensures OnlyPopped(reqs, after, q, rest, ids, now)
  {
    IncreasingSplit(q);
    forall i: nat | i < |reqs| ensures Popped1(reqs, after, q, rest, ids, now, i) {
      assert Popped1(marked, after, q[1..], rest, ids, now, i);
    }
  }

  /** The size of a batch. */
  function Served(live: seq<nat>, limit: int): (n: nat)
    ensures n <= |live|
  {
    if limit <= 0 then 0 else if limit < |live| then limit else |live|
  }

  /** A batch keeps order: everything it takes was submitted before everything it leaves. */
  lemma {:induction false} TakeWhileKeepsOrder(reqs: Table, q: seq<nat>, now: real, limit: int)
    requires Within(q, reqs) && Increasing(q)
    ensures var b := TakeWhile(reqs, q, now, limit);
      Increasing(b.rest) && Increasing(b.ids) && IsPartOf(b.rest, q) && IsPartOf(b.ids, q) && Precedes(b.ids, b.rest)
    decreases limit
  {
    if limit > 0 {
      NextForKeepsOrder(reqs, q, now);
      var p := NextFor(reqs, q, now);
      if p.id.Some? {
        TakeWhileKeepsOrder(p.reqs, p.rest, now, limit - 1);
        var b := TakeWhile(p.reqs, p.rest, now, limit - 1);
        PrependKeepsOrder(p.id.value, b.ids, b.rest, p.rest, q);
      }
    }
  }

  lemma PrependKeepsOrder(id: nat, ids: seq<nat>, rest: seq<nat>, popped: seq<nat>, q: seq<nat>)
    requires id in q && IsPartOf(popped, q) && forall x :: x in popped ==> id < x
    requires Increasing(ids) && IsPartOf(ids, popped) && IsPartOf(rest, popped) && Precedes(ids, rest)
    ensures Increasing([id] + ids) && IsPartOf([id] + ids, q) && IsPartOf(rest, q) && Precedes([id] + ids, rest)
  {
    forall k | 0 <= k < |ids| ensures id < ids[k] {
      assert ids[k] in ids;
    }
  }

  /** `ids` are the first `limit` of the live entries and `left` are the others. */
  predicate ServesPrefix(live: seq<nat>, limit: int, ids: seq<nat>, left: seq<nat>) {
    ids == live[..Served(live, limit)] && left == live[Served(live, limit)..]
  }

  /** A batch is exactly the first `limit` live entries in order of submission, and the live entries it
      leaves are exactly the others. */
  lemma {:induction false} TakeWhileServesPrefix(reqs: Table, q: seq<nat>, now: real, limit: int)
    requires Within(q, reqs) && Increasing(q)
    ensures var b := TakeWhile(reqs, q, now, limit);
      ServesPrefix(Live(reqs, q), limit, b.ids, Live(b.reqs, b.rest))
    decreases limit
  {
    if limit <= 0 || Live(reqs, q) == [] {
      NextForServesHead(reqs, q, now);
      EmptyPrefix(Live(reqs, q), limit);
    } else {
      NextForServesHead(reqs, q, now);
      NextForKeepsOrder(reqs, q, now);
      var p := NextFor(reqs, q, now);
      TakeWhileServesPrefix(p.reqs, p.rest, now, limit - 1);
      var b := TakeWhile(p.reqs, p.rest, now, limit - 1);
      PrefixStep(Live(reqs, q), limit, b.ids, Live(b.reqs, b.rest));
      assert TakeWhile(reqs, q, now, limit) == Batch(b.reqs, b.rest, [p.id.value] + b.ids);
    }
  }

  lemma EmptyPrefix(live: seq<nat>, limit: int)
    requires limit <= 0 || live == []
    ensures ServesPrefix(live, limit, [], live)
  {
  }

  lemma PrefixStep(live: seq<nat>, limit: int, ids: seq<nat>, left: seq<nat>)
    requires 0 < limit && live != [] && ServesPrefix(live[1..], limit - 1, ids, left)
    ensures ServesPrefix(live, limit, [live[0]] + ids, left)
  {
    var n := Served(live, limit);
    assert live[..n] == [live[0]] + live[1..][..n - 1];
    assert live[n..] == live[1..][n - 1..];
  }

  /** A batch starts what it takes, drops cancelled entries, and touches nothing else. */
  lemma {:induction false} TakeWhileTouches(reqs: Table, q: seq<nat>, now: real, limit: int)
    requires Within(q, reqs) && Increasing(q)
    ensures var b := TakeWhile(reqs, q, now, limit); OnlyPopped(reqs, b.reqs, q, b.rest, b.ids, now)
    decreases limit
  {
    if limit <= 0 {
      NothingPopped(reqs, q, now);
    } else {
      NextForTouches(reqs, q, now);
      var p := NextFor(reqs, q, now);
      if p.id.Some? {
        NextForKeepsOrder(reqs, q, now);
        TakeWhileTouches(p.reqs, p.rest, now, limit - 1);
        TouchesMore(reqs, q, now, limit, p, TakeWhile(p.reqs, p.rest, now, limit - 1));
      }
    }
  }

  lemma TouchesMore(reqs: Table, q: seq<nat>, now: real, limit: int, p: Popped, b: Batch)
    requires Within(q, reqs) && Increasing(q) && 0 < limit
    requires p == NextFor(reqs, q, now) && p.id.Some? && Increasing(p.rest)
    requires b == TakeWhile(p.reqs, p.rest, now, limit - 1)
    requires OnlyPopped(reqs, p.reqs, q, p.rest, [p.id.value], now)
    requires OnlyPopped(p.reqs, b.reqs, p.rest, b.rest, b.ids, now)
    ensures OnlyPopped(reqs, b.reqs, q, b.rest, [p.id.value] + b.ids, now)
  {
    NextForKeepsOrder(reqs, q, now);
    TakeWhileKeepsOrder(p.reqs, p.rest, now, limit - 1);
    PopsCompose(reqs, p.reqs, b.reqs, q, p.rest, b.rest, p.id.value, b.ids, now);
  }

  /** One pop, then the rest of the batch. */
  lemma TakeUnfolds(reqs: Table, q: seq<nat>, now: real, limit: int)
    requires Within(q, reqs) && 0 < limit
    ensures var p := NextFor(reqs, q, now);
      if p.id.None? then TakeWhile(reqs, q, now, limit) == Batch(p.reqs, p.rest, [])
      else
        var b := TakeWhile(p.reqs, p.rest, now, limit - 1);
        TakeWhile(reqs, q, now, limit) == Batch(b.reqs, b.rest, [p.id.value] + b.ids)
  {
  }

  lemma NothingPopped(reqs: Table, q: seq<nat>, now: real)
    ensures OnlyPopped(reqs, reqs, q, q, [], now)
  {
  }

  lemma PopsCompose(
    reqs: Table, mid: Table, after: Table, q: seq<nat>, popped: seq<nat>, rest: seq<nat>,
    id: nat, ids: seq<nat>, now: real)
    requires OnlyPopped(reqs, mid, q, popped, [id], now)
    requires OnlyPopped(mid, after, popped, rest, ids, now)
    requires IsPartOf(popped, q) && IsPartOf(rest, popped) && IsPartOf(ids, popped) && id !in popped
    ensures OnlyPopped(reqs, after, q, rest, [id] + ids, now)
  {
    forall i: nat | i < |reqs| ensures Popped1(reqs, after, q, rest, [id] + ids, now, i) {
      assert Popped1(reqs, mid, q, popped, [id], now, i);
      assert Popped1(mid, after, popped, rest, ids, now, i);
    }
  }

  // ------------------------------------------------------------------ positions

  lemma {:induction false} PositionKnownIffQueued(reqs: Table, q: seq<nat>, id: nat)
    requires Within(q, reqs)
    ensures PositionOf(reqs, q, id).Some? <==> id in q
  {
    if q != [] {
      assert q == [q[0]] + q[1..];
      PositionKnownIffQueued(reqs, q[1..], id);
    }
  }

  /** A position is the index among live entries, for every request whose client is still there. */
  lemma {:induction false} PositionCountsLive(reqs: Table, q: seq<nat>, id: nat)
    requires Within(q, reqs)
    requires id in q && !reqs[id].cancelled
    ensures var p := PositionOf(reqs, q, id);
      p.Some? && p.value < |Live(reqs, q)| && Live(reqs, q)[p.value] == id
  {
    if q[0] != id {
      assert q == [q[0]] + q[1..];
      PositionCountsLive(reqs, q[1..], id);
      if !reqs[q[0]].cancelled {
        assert Live(reqs, q) == [q[0]] + Live(reqs, q[1..]);
      }
    }
  }

  /** A lingering cancelled entry is invisible to every position query except one about itself: asking
      the full queue and asking the live entries agree if and only if the request asked about is not
      itself a cancelled entry of the queue. */
  lemma PositionSeesOnlyLiveIff(reqs: Table, q: seq<nat>, id: nat)
    requires Within(q, reqs) && Increasing(q)
    ensures PositionOf(reqs, q, id) == PositionOf(reqs, Live(reqs, q), id)
       <==> !(id in q && reqs[id].cancelled)
  {
    var live := Live(reqs, q);
    PositionKnownIffQueued(reqs, q, id);
    PositionKnownIffQueued(reqs, live, id);
    LiveMembers(reqs, q);
    if id in q && !reqs[id].cancelled {
      LiveIsIncreasing(reqs, q);
      LiveIsIdempotent(reqs, q);
      PositionCountsLive(reqs, q, id);
      PositionCountsLive(reqs, live, id);
    }
  }
}

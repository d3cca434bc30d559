/** The per-model queues themselves: lists of request records that are appended to, popped and rebuilt in
    place. Every method is proved to compute what QueueSpec says, on the table of all requests. */
module Queues {
  import opened Types
  import opened Requests
  import QueueSpec

  lemma IdsTail(q: seq<QueuedRequest>)
    requires q != []
    ensures Ids(q)[0] == q[0].id && Ids(q)[1..] == Ids(q[1..])
  {
  }

  lemma IdsSnoc(q: seq<QueuedRequest>, last: QueuedRequest)
    ensures Ids(q + [last]) == Ids(q) + [last.id]
  {
  }

  lemma Join(q: seq<QueuedRequest>, more: seq<QueuedRequest>, all: seq<QueuedRequest>)
    requires Among(q, all) && Among(more, all)
    ensures Among(q + more, all) && Ids(q + more) == Ids(q) + Ids(more)
  {
  }

  lemma JoinOne(q: seq<QueuedRequest>, one: QueuedRequest, all: seq<QueuedRequest>)
    requires Among(q, all) && one.id < |all| && all[one.id] == one
    ensures Among(q + [one], all)
  {
  }

  ghost function Marked(r: Request, listed: bool): Request {
    if listed && r.cancelled then r.(state := Cancelled) else r
  }

  /** Every request is as it was, except that the cancelled ones listed in `q` are marked. */
  ghost predicate AreMarked(was: QueueSpec.Table, reqs: QueueSpec.Table, q: seq<nat>) {
    |reqs| == |was| && forall i :: 0 <= i < |was| ==> reqs[i] == Marked(was[i], i in q)
  }

  lemma MarkOne(was: QueueSpec.Table, reqs: QueueSpec.Table, q: seq<nat>, id: nat)
    requires AreMarked(was, reqs, q) && id < |was|
    ensures reqs[id].cancelled == was[id].cancelled
    ensures was[id].cancelled ==> AreMarked(was, reqs[id := reqs[id].(state := Cancelled)], q + [id])
    ensures !was[id].cancelled ==> AreMarked(was, reqs, q + [id])
  {
  }

  /** `live` and `dead` are the two parts of `q` without its remainder `rest`. */
  ghost predicate Parted(was: QueueSpec.Table, q: seq<nat>, live: seq<nat>, dead: seq<nat>, rest: seq<nat>) {
    && QueueSpec.Within(q, was) && QueueSpec.Within(rest, was)
    && live + QueueSpec.Live(was, rest) == QueueSpec.Live(was, q)
    && dead + QueueSpec.Dead(was, rest) == QueueSpec.Dead(was, q)
  }

  lemma PartOne(was: QueueSpec.Table, q: seq<nat>, live: seq<nat>, dead: seq<nat>, rest: seq<nat>)
    requires Parted(was, q, live, dead, rest) && rest != []
    ensures if was[rest[0]].cancelled then Parted(was, q, live, dead + [rest[0]], rest[1..])
            else Parted(was, q, live + [rest[0]], dead, rest[1..])
  {
  }

  lemma AllParted(was: QueueSpec.Table, q: seq<nat>, live: seq<nat>, dead: seq<nat>)
    requires Parted(was, q, live, dead, [])
    ensures live == QueueSpec.Live(was, q) && dead == QueueSpec.Dead(was, q)
  {
  }

  lemma {:induction false} NothingToPurge(reqs: QueueSpec.Table, q: seq<nat>)
    requires QueueSpec.Within(q, reqs) && forall k :: 0 <= k < |q| ==> !reqs[q[k]].cancelled
    ensures QueueSpec.Live(reqs, q) == q && QueueSpec.Dead(reqs, q) == []
    ensures forall i :: 0 <= i < |reqs| ==> Marked(reqs[i], i in q) == reqs[i]
  {
    if q != [] {
      assert forall k :: 0 <= k < |q[1..]| ==> q[1..][k] == q[k + 1];
      NothingToPurge(reqs, q[1..]);
    }
  }

  lemma {:induction false} DeadOfSameFlags(reqs: QueueSpec.Table, other: QueueSpec.Table, q: seq<nat>)
    requires QueueSpec.Within(q, reqs) && |other| == |reqs|
    requires forall k :: 0 <= k < |q| ==> other[q[k]].cancelled == reqs[q[k]].cancelled
    ensures QueueSpec.Dead(other, q) == QueueSpec.Dead(reqs, q)
  {
    if q != [] {
      assert forall k :: 0 <= k < |q[1..]| ==> q[1..][k] == q[k + 1];
      DeadOfSameFlags(reqs, other, q[1..]);
    }
  }

  ghost predicate Own(reqs: QueueSpec.Table, q: seq<nat>, m: ModelName) {
    forall id :: id in q ==> id < |reqs| && reqs[id].model == m
  }

  /** What purging the queue `name` alone does to the requests and the queues. */
  ghost predicate OnePurged(
    was: QueueSpec.Table, lists: QueueSpec.Queues, reqs: QueueSpec.Table, queues: QueueSpec.Queues,
    name: ModelName, removed: seq<nat>)
  {
    && name in lists && QueueSpec.Within(lists[name], was)
    && queues == lists[name := QueueSpec.Live(was, lists[name])]
    && removed == QueueSpec.Dead(was, lists[name])
    && AreMarked(was, reqs, lists[name])
  }

  /** The first `n` of the queues have been purged, the others not yet. */
  ghost predicate Purging(
    was: QueueSpec.Table, lists: QueueSpec.Queues, reqs: QueueSpec.Table, queues: QueueSpec.Queues,
    names: seq<ModelName>, n: nat, removed: seq<nat>)
  {
    && QueueSpec.AllWithin(lists, was) && |reqs| == |was| && queues.Keys == lists.Keys && n <= |names|
    && (forall m :: m in lists ==> queues[m] == if m in names[..n] then QueueSpec.Live(was, lists[m]) else lists[m])
    && (forall i :: 0 <= i < |was| ==>
          reqs[i] == Marked(was[i], was[i].model in names[..n] && QueueSpec.IsDead(was, lists, i)))
    && removed + QueueSpec.Removed(was, lists, names[n..]) == QueueSpec.Removed(was, lists, names)
  }

  lemma PurgeMore(
    was: QueueSpec.Table, lists: QueueSpec.Queues, reqs: QueueSpec.Table, queues: QueueSpec.Queues,
    names: seq<ModelName>, n: nat, removed: seq<nat>,
    after: QueueSpec.Table, left: QueueSpec.Queues, dropped: seq<nat>)
    requires Purging(was, lists, reqs, queues, names, n, removed) && n < |names| && Distinct(names)
    requires OnePurged(reqs, queues, after, left, names[n], dropped)
    requires Own(reqs, queues[names[n]], names[n])
    ensures Purging(was, lists, after, left, names, n + 1, removed + dropped)
  {
    var name := names[n];
    assert name !in names[..n] && names[..n + 1] == names[..n] + [name] && names[n..][1..] == names[n + 1..];
    QueueSpec.LiveOfSameFlags(was, reqs, lists[name]);
    DeadOfSameFlags(was, reqs, lists[name]);
    MarkMore(was, lists, reqs, after, names, n);
  }

  lemma MarkMore(
    was: QueueSpec.Table, lists: QueueSpec.Queues, reqs: QueueSpec.Table, after: QueueSpec.Table,
    names: seq<ModelName>, n: nat)
    requires |reqs| == |was| && n < |names| && names[n] in lists && names[n] !in names[..n]
    requires names[..n + 1] == names[..n] + [names[n]]
    requires forall i :: 0 <= i < |was| ==>
      reqs[i] == Marked(was[i], was[i].model in names[..n] && QueueSpec.IsDead(was, lists, i))
    requires AreMarked(reqs, after, lists[names[n]])
    requires forall id :: id in lists[names[n]] ==> id < |was| && was[id].model == names[n]
    ensures forall i :: 0 <= i < |was| ==>
      after[i] == Marked(was[i], was[i].model in names[..n + 1] && QueueSpec.IsDead(was, lists, i))
  {
  }

  lemma AllPurged(
    was: QueueSpec.Table, lists: QueueSpec.Queues, reqs: QueueSpec.Table, queues: QueueSpec.Queues,
    names: seq<ModelName>, removed: seq<nat>)
    requires Purging(was, lists, reqs, queues, names, |names|, removed)
    requires forall m :: m in lists ==> m in names
    ensures reqs == QueueSpec.PurgedTable(was, lists) && queues == QueueSpec.PurgedQueues(was, lists)
    ensures removed == QueueSpec.Removed(was, lists, names)
  {
    assert names[..|names|] == names;
  }

  predicate Distinct(names: seq<ModelName>) {
    forall j, k :: 0 <= j < k < |names| ==> names[j] != names[k]
  }

  ghost function ListsOf(queues: map<ModelName, seq<QueuedRequest>>): QueueSpec.Queues {
    map m | m in queues :: Ids(queues[m])
  }

  lemma OneListChanged(queues: map<ModelName, seq<QueuedRequest>>, m: ModelName, q: seq<QueuedRequest>)
    ensures ListsOf(queues[m := q]) == ListsOf(queues)[m := Ids(q)]
  {
  }

  lemma SameList(lists: QueueSpec.Queues, m: ModelName)
    requires m in lists
    ensures lists[m := lists[m]] == lists
  {
  }

  lemma OverwritesList(lists: QueueSpec.Queues, m: ModelName, q: seq<nat>, r: seq<nat>)
    ensures lists[m := q][m := r] == lists[m := r]
  {
  }

  class ModelQueues {
    const names: seq<ModelName>
    var queues: map<ModelName, seq<QueuedRequest>>

    /** `all` is every request ever submitted; each queue holds some of them, of its own model. */
    ghost predicate Valid(all: seq<QueuedRequest>)
      reads this
    {
      && Indexed(all)
      && Distinct(names)
      && (forall m :: m in queues <==> m in names)
      && (forall m :: m in queues ==> Holds(queues[m], m, all))
    }

    static ghost predicate Holds(q: seq<QueuedRequest>, m: ModelName, all: seq<QueuedRequest>) {
      Among(q, all) && forall k :: 0 <= k < |q| ==> q[k].model == m
    }

    ghost function Lists(): QueueSpec.Queues
      reads this
    {
      ListsOf(queues)
    }

    lemma OwnsItsOwn(m: ModelName, all: seq<QueuedRequest>)
      requires Valid(all) && m in names
      ensures m in queues && m in Lists() && Own(Values(all), Lists()[m], m)
    {
    }

    constructor (names: seq<ModelName>)
      requires Distinct(names)
      ensures this.names == names && Valid([])
      ensures Lists() == map m | m in names :: []
    {
      this.names := names;
      queues := map m | m in names :: [];
    }

    /** False is the KeyError for a model the configuration does not know. */
    method Enqueue(request: QueuedRequest, ghost all: seq<QueuedRequest>) returns (known: bool)
      requires Valid(all) && request.id < |all| && all[request.id] == request
      modifies this
      ensures Valid(all)
      ensures known == (request.model in old(queues))
      ensures Lists() == if known then old(Lists())[request.model := old(Lists())[request.model] + [request.id]]
                         else old(Lists())
    {
      if request.model !in queues {
        return false;
      }
      queues := queues[request.model := queues[request.model] + [request]];
      assert Ids(queues[request.model]) == old(Lists())[request.model] + [request.id];
      known := true;
    }

    method Depth(model: ModelName, ghost all: seq<QueuedRequest>) returns (n: nat)
      requires Valid(all) && model in queues
      ensures n == QueueSpec.Depth(Values(all), Lists()[model])
    {
      n := 0;
      var q := queues[model];
      for i := 0 to |q|
        invariant n + QueueSpec.Depth(Values(all), Ids(q[i..])) == QueueSpec.Depth(Values(all), Ids(q))
      {
        IdsTail(q[i..]);
        assert q[i..][1..] == q[i + 1..];
        if !q[i].cancelled {
          n := n + 1;
        }
      }
    }

    method OldestEnqueuedAt(model: ModelName, ghost all: seq<QueuedRequest>) returns (at: Option<real>)
      requires Valid(all) && model in queues
      ensures at == QueueSpec.Oldest(Values(all), Lists()[model])
    {
      var q := queues[model];
      for i := 0 to |q|
        invariant QueueSpec.Live(Values(all), Ids(q[i..])) == QueueSpec.Live(Values(all), Ids(q))
      {
        IdsTail(q[i..]);
        assert q[i..][1..] == q[i + 1..];
        if !q[i].cancelled {
          return Some(q[i].enqueuedAt);
        }
      }
      at := None;
    }

    method PositionOf(request: QueuedRequest, ghost all: seq<QueuedRequest>) returns (position: Option<nat>)
      requires Valid(all) && request.id < |all| && all[request.id] == request
      ensures position == if request.model in queues
                          then QueueSpec.PositionOf(Values(all), Lists()[request.model], request.id) else None
    {
      if request.model !in queues {
        return None;
      }
      var q := queues[request.model];
      var ahead := 0;
      ghost var values := Values(all);
      for i := 0 to |q|
        invariant var rest := QueueSpec.PositionOf(values, Ids(q[i..]), request.id);
          QueueSpec.PositionOf(values, Ids(q), request.id) ==
            if rest.None? then None else Some(rest.value + ahead)
      {
        IdsTail(q[i..]);
        assert q[i..][1..] == q[i + 1..];
        if q[i] == request {
          return Some(ahead);
        }
        if !q[i].cancelled {
          ahead := ahead + 1;
        }
      }
      position := None;
    }

    /** The requests and the queues are these values. */
    ghost predicate Stand(all: seq<QueuedRequest>, reqs: QueueSpec.Table, lists: QueueSpec.Queues)
      reads this, all
    {
      Values(all) == reqs && Lists() == lists
    }

    /** Pop the head of a queue: start it if its client is there, drop it otherwise. */
    method PopHead(model: ModelName, now: real, ghost all: seq<QueuedRequest>) returns (head: QueuedRequest, live: bool)
      requires Valid(all) && model in queues && queues[model] != []
      modifies this, all
      ensures Valid(all) && model in queues && |queues[model]| < |old(queues[model])|
      ensures head.id < |all| && all[head.id] == head && head.id == old(Lists())[model][0]
      ensures live == !old(Values(all))[head.id].cancelled
      ensures Stand(all, After(old(Values(all)), head.id, now), old(Lists())[model := old(Lists())[model][1..]])
    {
      head := queues[model][0];
      IdsTail(queues[model]);
      OneListChanged(queues, model, queues[model][1..]);
      queues := queues[model := queues[model][1..]];
      live := !head.cancelled;
      if live {
        head.Start(now, all);
      } else {
        head.Drop(all);
      }
    }

    /** What popping a head does to it. */
    static ghost function After(reqs: QueueSpec.Table, id: nat, now: real): QueueSpec.Table
      requires id < |reqs|
    {
      reqs[id := if reqs[id].cancelled then reqs[id].(state := Cancelled) else QueueSpec.Started(reqs[id], now)]
    }

    static lemma PopUnfolds(reqs: QueueSpec.Table, q: seq<nat>, now: real)
      requires QueueSpec.Within(q, reqs) && q != []
      ensures var p, next := QueueSpec.NextFor(reqs, q, now), After(reqs, q[0], now);
        if reqs[q[0]].cancelled then QueueSpec.Within(q[1..], next) && QueueSpec.NextFor(next, q[1..], now) == p
        else p == QueueSpec.Popped(next, q[1..], Some(q[0]))
    {
    }

    /** The first live entry is started and returned; the cancelled ones before it are gone and marked. */
    method NextFor(model: ModelName, now: real, ghost all: seq<QueuedRequest>) returns (taken: QueuedRequest?)
      requires Valid(all) && model in queues
      modifies this, all
      ensures Valid(all)
      ensures Popped(all, old(Lists()), model, taken, QueueSpec.NextFor(old(Values(all)), old(Lists())[model], now))
    {
      ghost var reqs, q, lists := Values(all), Lists()[model], Lists();
      ghost var p := QueueSpec.NextFor(reqs, q, now);
      SameList(lists, model);
      while queues[model] != []
        invariant Valid(all) && model in queues && QueueSpec.Within(q, reqs)
        invariant Stand(all, reqs, lists[model := q])
        invariant QueueSpec.NextFor(reqs, q, now) == p
        decreases |queues[model]|
      {
        assert q == Lists()[model] == Ids(queues[model]);
        PopUnfolds(reqs, q, now);
        OverwritesList(lists, model, q, q[1..]);
        var request, live := PopHead(model, now, all);
        if live {
          return request;
        }
        reqs, q := After(reqs, q[0], now), q[1..];
      }
      assert Lists()[model] == Ids(queues[model]);
      taken := null;
    }

    /** The requests and queues are as the pop `p` from queue `model` of `lists` leaves them. */
    ghost predicate Popped(
      all: seq<QueuedRequest>, lists: QueueSpec.Queues, model: ModelName, taken: QueuedRequest?, p: QueueSpec.Popped)
      reads this, all
    {
      && Stand(all, p.reqs, lists[model := p.rest])
      && (taken == null <==> p.id.None?)
      && (taken != null ==> taken.id < |all| && all[taken.id] == taken && p.id == Some(taken.id))
    }

    /** The first live entries, at most `limit`, are started and returned in order. */
    method TakeWhile(model: ModelName, now: real, limit: int, ghost all: seq<QueuedRequest>)
      returns (taken: seq<QueuedRequest>)
      requires Valid(all) && model in queues
      modifies this, all
      ensures Valid(all) && Among(taken, all)
      ensures var b := QueueSpec.TakeWhile(old(Values(all)), old(Lists())[model], now, limit);
        Stand(all, b.reqs, old(Lists())[model := b.rest]) && Ids(taken) == b.ids
    {
      taken := [];
      ghost var reqs, q, lists := Values(all), Lists()[model], Lists();
      ghost var b := QueueSpec.TakeWhile(reqs, q, now, limit);
      var left := limit;
      SameList(lists, model);
      NoneYet(reqs, q, now, limit);
      while 0 < left
        invariant Valid(all) && model in queues && Among(taken, all)
        invariant Stand(all, reqs, lists[model := q]) && IsMidway(b, taken, reqs, q, now, left)
      {
        ghost var p := NextTaken(b, taken, reqs, q, now, left);
        var request := TakeOne(model, now, all, lists, q, p);
        if request == null {
          return;
        }
        var next: QueuedRequest := request;
        OneMore(b, taken, next, reqs, q, now, left, p);
        JoinOne(taken, next, all);
        reqs, q, taken, left := p.reqs, p.rest, taken + [next], left - 1;
      }
      NoMore(b, taken, reqs, q, now, left);
    }

    /** What was taken so far, followed by what up to `left` more pops will take, is the batch `b`. */
    static ghost predicate IsMidway(
      b: QueueSpec.Batch, taken: seq<QueuedRequest>, reqs: QueueSpec.Table, q: seq<nat>, now: real, left: int)
    {
      QueueSpec.Within(q, reqs) &&
      var rest := QueueSpec.TakeWhile(reqs, q, now, left);
      b == QueueSpec.Batch(rest.reqs, rest.rest, Ids(taken) + rest.ids)
    }

    static lemma NoneYet(reqs: QueueSpec.Table, q: seq<nat>, now: real, limit: int)
      requires QueueSpec.Within(q, reqs)
      ensures IsMidway(QueueSpec.TakeWhile(reqs, q, now, limit), [], reqs, q, now, limit)
    {
      var ids := QueueSpec.TakeWhile(reqs, q, now, limit).ids;
      assert Ids([]) + ids == ids;
    }

    /** The next pop; if it finds nobody, the batch is complete. */
    static lemma NextTaken(
      b: QueueSpec.Batch, taken: seq<QueuedRequest>, reqs: QueueSpec.Table, q: seq<nat>, now: real, left: int)
      returns (p: QueueSpec.Popped)
      requires IsMidway(b, taken, reqs, q, now, left) && 0 < left
      ensures QueueSpec.Within(q, reqs) && p == QueueSpec.NextFor(reqs, q, now)
      ensures p.id.None? ==> b == QueueSpec.Batch(p.reqs, p.rest, Ids(taken))
    {
      p := QueueSpec.NextFor(reqs, q, now);
      QueueSpec.TakeUnfolds(reqs, q, now, left);
      assert Ids(taken) + [] == Ids(taken);
    }

    static lemma OneMore(
      b: QueueSpec.Batch, taken: seq<QueuedRequest>, next: QueuedRequest, reqs: QueueSpec.Table, q: seq<nat>,
      now: real, left: int, p: QueueSpec.Popped)
      requires IsMidway(b, taken, reqs, q, now, left) && 0 < left
      requires p == QueueSpec.NextFor(reqs, q, now) && p.id == Some(next.id)
      ensures IsMidway(b, taken + [next], p.reqs, p.rest, now, left - 1)
    {
      QueueSpec.TakeUnfolds(reqs, q, now, left);
      IdsSnoc(taken, next);
    }

    static lemma NoMore(
      b: QueueSpec.Batch, taken: seq<QueuedRequest>, reqs: QueueSpec.Table, q: seq<nat>, now: real, left: int)
      requires IsMidway(b, taken, reqs, q, now, left) && left <= 0
      ensures b == QueueSpec.Batch(reqs, q, Ids(taken))
    {
      assert Ids(taken) + [] == Ids(taken);
    }

    /** One more pop, on queues of which only that of `model` has changed so far. */
    method TakeOne(
      model: ModelName, now: real, ghost all: seq<QueuedRequest>,
      ghost lists: QueueSpec.Queues, ghost q: seq<nat>, ghost p: QueueSpec.Popped)
      returns (taken: QueuedRequest?)
      requires Valid(all) && model in queues && Lists() == lists[model := q] && QueueSpec.Within(q, Values(all))
      requires p == QueueSpec.NextFor(Values(all), q, now)
      modifies this, all
      ensures Valid(all) && model in queues && Popped(all, lists, model, taken, p)
    {
      assert Lists()[model] == q;
      taken := NextFor(model, now, all);
      OverwritesList(lists, model, q, p.rest);
    }

    /** Rebuild one queue from its live entries, marking the others. */
    method PurgeOne(name: ModelName, ghost all: seq<QueuedRequest>) returns (removed: seq<QueuedRequest>)
      requires Valid(all) && name in queues
      modifies this, all
      ensures Valid(all) && Among(removed, all)
      ensures OnePurged(old(Values(all)), old(Lists()), Values(all), Lists(), name, Ids(removed))
    {
      removed := [];
      var q := queues[name];
      ghost var was := Values(all);
      if forall k :: 0 <= k < |q| ==> !q[k].cancelled {
        NothingToPurge(was, Ids(q));
        assert Lists()[name := Ids(q)] == Lists();
        return;
      }
      var live: seq<QueuedRequest>;
      live, removed := Split(name, q, all);
      AllParted(was, Ids(q), Ids(live), Ids(removed));
      OneListChanged(queues, name, live);
      queues := queues[name := live];
    }

    /** Tell the live entries of a queue from the cancelled ones, marking the latter. */
    static method Split(name: ModelName, q: seq<QueuedRequest>, ghost all: seq<QueuedRequest>)
      returns (live: seq<QueuedRequest>, removed: seq<QueuedRequest>)
      requires Indexed(all) && Holds(q, name, all)
      modifies all
      ensures Holds(live, name, all) && Among(removed, all)
      ensures Parted(old(Values(all)), Ids(q), Ids(live), Ids(removed), [])
      ensures AreMarked(old(Values(all)), Values(all), Ids(q))
    {
      live, removed := [], [];
      ghost var was := Values(all);
      for i := 0 to |q|
        invariant Holds(live, name, all) && Among(removed, all)
        invariant Parted(was, Ids(q), Ids(live), Ids(removed), Ids(q[i..]))
        invariant AreMarked(was, Values(all), Ids(q[..i]))
      {
        IdsTail(q[i..]);
        assert q[i..][1..] == q[i + 1..];
        PartOne(was, Ids(q), Ids(live), Ids(removed), Ids(q[i..]));
        MarkOne(was, Values(all), Ids(q[..i]), q[i].id);
        IdsSnoc(q[..i], q[i]);
        assert q[..i + 1] == q[..i] + [q[i]];
        if q[i].cancelled {
          q[i].Drop(all);
          IdsSnoc(removed, q[i]);
          removed := removed + [q[i]];
        } else {
          IdsSnoc(live, q[i]);
          live := live + [q[i]];
        }
      }
      assert q[..|q|] == q;
    }

    /** Drop every cancelled entry still sitting in a queue. */
    method PurgeCancelled(ghost all: seq<QueuedRequest>) returns (removed: seq<QueuedRequest>)
      requires Valid(all)
      modifies this, all
      ensures Valid(all)
      ensures Values(all) == QueueSpec.PurgedTable(old(Values(all)), old(Lists()))
      ensures Lists() == QueueSpec.PurgedQueues(old(Values(all)), old(Lists()))
      ensures Ids(removed) == QueueSpec.Removed(old(Values(all)), old(Lists()), names)
    {
      removed := [];
      ghost var was, lists := Values(all), Lists();
      ghost var reqs, queued := was, lists;
      for n := 0 to |names|
        invariant Valid(all) && Among(removed, all)
        invariant Stand(all, reqs, queued) && Purging(was, lists, reqs, queued, names, n, Ids(removed))
      {
        OwnsItsOwn(names[n], all);
        var dropped := PurgeOne(names[n], all);
        ghost var after, left := Values(all), Lists();
        PurgeMore(was, lists, reqs, queued, names, n, Ids(removed), after, left, Ids(dropped));
        reqs, queued := after, left;
        Join(removed, dropped, all);
        removed := removed + dropped;
      }
      AllPurged(was, lists, reqs, queued, names, Ids(removed));
    }

    /** One queue is left empty; all it held, live or not, is returned. */
    method Drain(model: ModelName, ghost all: seq<QueuedRequest>) returns (pending: seq<QueuedRequest>)
      requires Valid(all) && model in queues
      modifies this
      ensures Valid(all) && queues.Keys == old(queues).Keys && Among(pending, all)
      ensures Ids(pending) == old(Lists())[model]
      ensures Lists() == old(Lists())[model := []]
    {
      pending := queues[model];
      OneListChanged(queues, model, []);
      assert Ids([]) == [];
      queues := queues[model := []];
    }
  }
}

/** Virtual time: sleepers parked in order of deadline, fired as time is moved, with whatever the woken
    tasks do before time moves again. */
module Clock {
  import opened Types

  datatype Sleeper = Sleeper(deadline: real, number: nat)

  /** A sleeper fires at an instant. */
  datatype Wake = Wake(sleeper: Sleeper, at: real)

  /** The order of the heap: by deadline, then by registration. */
  predicate Before(a: Sleeper, b: Sleeper) {
    a.deadline < b.deadline || (a.deadline == b.deadline && a.number < b.number)
  }

  ghost predicate Sorted(q: seq<Sleeper>) {
    forall i, j :: 0 <= i < j < |q| ==> Before(q[i], q[j])
  }

  /** What a running task may do to the clock before it parks. */
  datatype Deed = Sleep(seconds: real) | CancelSleeper(number: nat)

  /** Sleeps that park at all last at least `least`. */
  predicate Paced(deeds: seq<Deed>, least: real) {
    forall k :: 0 <= k < |deeds| && deeds[k].Sleep? ==> deeds[k].seconds <= 0.0 || least <= deeds[k].seconds
  }

  // ------------------------------------------------------------------ the queue of sleepers

  function Inserted(q: seq<Sleeper>, s: Sleeper): seq<Sleeper> {
    if q == [] || Before(s, q[0]) then [s] + q else [q[0]] + Inserted(q[1..], s)
  }

  lemma {:induction false} InsertSorts(q: seq<Sleeper>, s: Sleeper)
    requires Sorted(q) && forall i :: 0 <= i < |q| ==> q[i].number != s.number
    ensures Sorted(Inserted(q, s))
    ensures forall x :: x in Inserted(q, s) <==> x == s || x in q
  {
    if q != [] && !Before(s, q[0]) {
      assert forall i :: 0 <= i < |q[1..]| ==> q[1..][i] == q[i + 1];
      InsertSorts(q[1..], s);
      var rest := Inserted(q[1..], s);
      forall j | 0 <= j < |rest| ensures Before(q[0], rest[j]) {
        assert rest[j] in rest;
      }
    }
  }

  function Removed(q: seq<Sleeper>, number: nat): seq<Sleeper> {
    if q == [] then []
    else if q[0].number == number then q[1..]
    else [q[0]] + Removed(q[1..], number)
  }

  ghost predicate DistinctNumbers(q: seq<Sleeper>) {
    forall i, j :: 0 <= i < j < |q| ==> q[i].number != q[j].number
  }

  lemma {:induction false} RemoveKeepsOrder(q: seq<Sleeper>, number: nat)
    requires Sorted(q) && DistinctNumbers(q)
    ensures Sorted(Removed(q, number)) && DistinctNumbers(Removed(q, number))
    ensures forall x :: x in Removed(q, number) <==> x in q && x.number != number
  {
    if q != [] {
      assert forall i :: 0 <= i < |q[1..]| ==> q[1..][i] == q[i + 1];
      RemoveKeepsOrder(q[1..], number);
      assert q == [q[0]] + q[1..];
      FirstKeepsOrder(q[0], Removed(q[1..], number), q[1..]);
    }
  }

  lemma FirstKeepsOrder(first: Sleeper, kept: seq<Sleeper>, others: seq<Sleeper>)
    requires Sorted(kept) && DistinctNumbers(kept) && Sorted([first] + others) && DistinctNumbers([first] + others)
    requires forall x :: x in kept ==> x in others
    ensures Sorted([first] + kept) && DistinctNumbers([first] + kept)
  {
    forall j | 0 <= j < |kept| ensures Before(first, kept[j]) && kept[j].number != first.number {
      assert kept[j] in kept;
      var i :| 0 <= i < |others| && others[i] == kept[j];
      var all := [first] + others;
      assert all[0] == first && all[i + 1] == kept[j];
    }
  }

  /** How many are due before `limit`. */
  function DueBefore(q: seq<Sleeper>, limit: real): nat {
    if q == [] then 0 else (if q[0].deadline < limit then 1 else 0) + DueBefore(q[1..], limit)
  }

  lemma {:induction false} InsertLateAddsNone(q: seq<Sleeper>, s: Sleeper, limit: real)
    requires limit <= s.deadline
    ensures DueBefore(Inserted(q, s), limit) == DueBefore(q, limit)
  {
    if q != [] && !Before(s, q[0]) {
      InsertLateAddsNone(q[1..], s, limit);
      assert Inserted(q, s)[1..] == Inserted(q[1..], s);
    } else {
      assert Inserted(q, s)[1..] == q;
    }
  }

  lemma {:induction false} RemoveAddsNone(q: seq<Sleeper>, number: nat, limit: real)
    ensures DueBefore(Removed(q, number), limit) <= DueBefore(q, limit)
  {
    if q != [] && q[0].number != number {
      RemoveAddsNone(q[1..], number, limit);
      assert Removed(q, number)[1..] == Removed(q[1..], number);
    }
  }

  ghost predicate Holds(q: seq<Sleeper>, n: nat) {
    exists i :: 0 <= i < |q| && q[i].number == n
  }

  ghost predicate HasWoken(woken: seq<Wake>, n: nat) {
    exists i :: 0 <= i < |woken| && woken[i].sleeper.number == n
  }

  lemma InsertHolds(q: seq<Sleeper>, s: Sleeper, n: nat)
    requires Sorted(q) && forall i :: 0 <= i < |q| ==> q[i].number != s.number
    ensures Holds(Inserted(q, s), n) <==> s.number == n || Holds(q, n)
  {
    InsertSorts(q, s);
    var r := Inserted(q, s);
    if Holds(r, n) {
      var i :| 0 <= i < |r| && r[i].number == n;
      assert r[i] in r;
    }
    if Holds(q, n) {
      var i :| 0 <= i < |q| && q[i].number == n;
      assert q[i] in r;
    }
    assert s in r;
  }

  lemma RemoveHolds(q: seq<Sleeper>, number: nat, n: nat)
    requires Sorted(q) && DistinctNumbers(q)
    ensures Holds(Removed(q, number), n) <==> n != number && Holds(q, n)
  {
    RemoveKeepsOrder(q, number);
    var r := Removed(q, number);
    if Holds(r, n) {
      var i :| 0 <= i < |r| && r[i].number == n;
      assert r[i] in r;
    }
    if n != number && Holds(q, n) {
      var i :| 0 <= i < |q| && q[i].number == n;
      assert q[i] in r;
    }
  }

  lemma WakeHolds(q: seq<Sleeper>, woken: seq<Wake>, at: real, n: nat)
    requires q != [] && DistinctNumbers(q)
    ensures Holds(q[1..], n) <==> n != q[0].number && Holds(q, n)
    ensures HasWoken(woken + [Wake(q[0], at)], n) <==> n == q[0].number || HasWoken(woken, n)
  {
    if Holds(q, n) && n != q[0].number {
      var i :| 0 <= i < |q| && q[i].number == n;
      assert q[1..][i - 1].number == n;
    }
    var later := woken + [Wake(q[0], at)];
    if HasWoken(woken, n) {
      var i :| 0 <= i < |woken| && woken[i].sleeper.number == n;
      assert later[i].sleeper.number == n;
    }
    assert later[|woken|].sleeper.number == q[0].number;
  }

  // ------------------------------------------------------------------ the state of the clock

  /** Every sleeper ever registered is pending, woken or cancelled, and only one of these. */
  ghost predicate IsAccounted(q: seq<Sleeper>, woken: seq<Wake>, cancelled: set<nat>, n: nat) {
    && (Holds(q, n) || HasWoken(woken, n) || n in cancelled)
    && !(Holds(q, n) && HasWoken(woken, n)) && !(Holds(q, n) && n in cancelled) && !(HasWoken(woken, n) && n in cancelled)
  }

  ghost predicate Accounted(q: seq<Sleeper>, woken: seq<Wake>, cancelled: set<nat>, count: nat) {
    && (forall n: nat :: n < count ==> IsAccounted(q, woken, cancelled, n))
    && (forall n :: n in cancelled ==> n < count)
    && (forall i :: 0 <= i < |woken| ==> woken[i].sleeper.number < count)
    && (forall i :: 0 <= i < |q| ==> q[i].number < count)
  }

  /** Each wake happened exactly at its sleeper's deadline, and the whole trace is in heap order. */
  ghost predicate Causal(woken: seq<Wake>, now: real) {
    && (forall i, j :: 0 <= i < j < |woken| ==> Before(woken[i].sleeper, woken[j].sleeper))
    && (forall i :: 0 <= i < |woken| ==> woken[i].at == woken[i].sleeper.deadline <= now)
  }

  /** So they happened in the order of the deadlines, and at one instant in the order of registration. */
  lemma WakesInOrder(woken: seq<Wake>, now: real)
    requires Causal(woken, now)
    ensures forall i, j :: 0 <= i < j < |woken| ==>
      || woken[i].sleeper.deadline < woken[j].sleeper.deadline
      || (woken[i].at == woken[j].at && woken[i].sleeper.number < woken[j].sleeper.number)
  {
  }

  /** Nothing pending is due before `now`, and what is due now comes after everything that woke. */
  ghost predicate IsAhead(q: seq<Sleeper>, woken: seq<Wake>, now: real) {
    && (forall i :: 0 <= i < |q| ==> now <= q[i].deadline)
    && (forall i, j :: 0 <= i < |woken| && 0 <= j < |q| ==> Before(woken[i].sleeper, q[j]))
  }

  /** Whatever is pending or has woken is the sleeper registered under its number. */
  ghost predicate AreGenuine(registry: seq<Sleeper>, q: seq<Sleeper>, woken: seq<Wake>) {
    && (forall n :: 0 <= n < |registry| ==> registry[n].number == n)
    && (forall i :: 0 <= i < |q| ==> q[i].number < |registry| && registry[q[i].number] == q[i])
    && (forall i :: 0 <= i < |woken| ==>
          woken[i].sleeper.number < |registry| && registry[woken[i].sleeper.number] == woken[i].sleeper)
  }

  /** Exactly those have woken who are due by now and were not cancelled, each at its own deadline. */
  ghost predicate AreServed(registry: seq<Sleeper>, woken: seq<Wake>, cancelled: set<nat>, now: real) {
    forall n: nat :: n < |registry| ==>
      (Wake(registry[n], registry[n].deadline) in woken <==> registry[n].deadline <= now && n !in cancelled)
  }

  lemma DueHaveWoken(
    registry: seq<Sleeper>, q: seq<Sleeper>, woken: seq<Wake>, cancelled: set<nat>, count: nat, now: real)
    requires count == |registry| && AreGenuine(registry, q, woken) && Accounted(q, woken, cancelled, count)
    requires Causal(woken, now) && AllLater(q, now)
    ensures AreServed(registry, woken, cancelled, now)
  {
    forall n: nat | n < |registry|
      ensures Wake(registry[n], registry[n].deadline) in woken <==> registry[n].deadline <= now && n !in cancelled {
      assert IsAccounted(q, woken, cancelled, n);
      if HasWoken(woken, n) {
        var i :| 0 <= i < |woken| && woken[i].sleeper.number == n;
        assert woken[i] == Wake(registry[n], registry[n].deadline);
      }
      if Wake(registry[n], registry[n].deadline) in woken {
        var i :| 0 <= i < |woken| && woken[i] == Wake(registry[n], registry[n].deadline);
        assert HasWoken(woken, n);
      }
    }
  }

  lemma InsertIsGenuine(registry: seq<Sleeper>, q: seq<Sleeper>, woken: seq<Wake>, s: Sleeper)
    requires Sorted(q) && AreGenuine(registry, q, woken) && s.number == |registry|
    ensures AreGenuine(registry + [s], Inserted(q, s), woken)
  {
    InsertSorts(q, s);
    var r := Inserted(q, s);
    forall i | 0 <= i < |r| ensures r[i].number < |registry| + 1 && (registry + [s])[r[i].number] == r[i] {
      assert r[i] in r;
    }
  }

  ghost predicate AllLater(q: seq<Sleeper>, now: real) {
    forall i :: 0 <= i < |q| ==> now < q[i].deadline
  }

  lemma InsertIsAccounted(q: seq<Sleeper>, s: Sleeper, woken: seq<Wake>, cancelled: set<nat>, count: nat)
    requires Sorted(q) && DistinctNumbers(q) && Accounted(q, woken, cancelled, count) && s.number == count
    ensures Sorted(Inserted(q, s)) && DistinctNumbers(Inserted(q, s))
    ensures Accounted(Inserted(q, s), woken, cancelled, count + 1)
  {
    InsertSorts(q, s);
    InsertIsDistinct(q, s);
    var r := Inserted(q, s);
    forall n: nat | n < count + 1 ensures IsAccounted(r, woken, cancelled, n) {
      InsertHolds(q, s, n);
      assert n < count ==> IsAccounted(q, woken, cancelled, n);
      NumbersBelow(q, woken, cancelled, count);
    }
    forall i | 0 <= i < |r| ensures r[i].number < count + 1 {
      assert r[i] in r;
    }
  }

  lemma NumbersBelow(q: seq<Sleeper>, woken: seq<Wake>, cancelled: set<nat>, count: nat)
    requires Accounted(q, woken, cancelled, count)
    ensures !Holds(q, count) && !HasWoken(woken, count) && count !in cancelled
  {
  }

  lemma {:induction false} InsertIsDistinct(q: seq<Sleeper>, s: Sleeper)
    requires Sorted(q) && DistinctNumbers(q) && forall i :: 0 <= i < |q| ==> q[i].number != s.number
    ensures DistinctNumbers(Inserted(q, s))
  {
    if q != [] && !Before(s, q[0]) {
      assert forall i :: 0 <= i < |q[1..]| ==> q[1..][i] == q[i + 1];
      InsertIsDistinct(q[1..], s);
      InsertSorts(q[1..], s);
      var rest := Inserted(q[1..], s);
      forall j | 0 <= j < |rest| ensures rest[j].number != q[0].number {
        assert rest[j] in rest;
      }
    }
  }

  lemma RemoveIsAccounted(q: seq<Sleeper>, number: nat, woken: seq<Wake>, cancelled: set<nat>, count: nat)
    requires Sorted(q) && DistinctNumbers(q) && Accounted(q, woken, cancelled, count) && Holds(q, number)
    ensures Sorted(Removed(q, number)) && DistinctNumbers(Removed(q, number))
    ensures Accounted(Removed(q, number), woken, cancelled + {number}, count)
  {
    RemoveKeepsOrder(q, number);
    var r := Removed(q, number);
    forall n: nat | n < count ensures IsAccounted(r, woken, cancelled + {number}, n) {
      RemoveHolds(q, number, n);
      assert IsAccounted(q, woken, cancelled, n);
    }
    forall i | 0 <= i < |r| ensures r[i].number < count {
      assert r[i] in r;
    }
  }

  lemma WakeIsAccounted(q: seq<Sleeper>, woken: seq<Wake>, cancelled: set<nat>, count: nat, now: real)
    requires q != [] && Sorted(q) && DistinctNumbers(q) && Accounted(q, woken, cancelled, count)
    requires Causal(woken, now) && IsAhead(q, woken, now) && q[0].deadline <= now
    ensures var later := woken + [Wake(q[0], now)];
      && Sorted(q[1..]) && DistinctNumbers(q[1..]) && Accounted(q[1..], later, cancelled, count)
      && Causal(later, now) && IsAhead(q[1..], later, now)
  {
    var later := woken + [Wake(q[0], now)];
    forall n: nat | n < count ensures IsAccounted(q[1..], later, cancelled, n) {
      WakeHolds(q, woken, now, n);
      assert IsAccounted(q, woken, cancelled, n);
      assert Holds(q, q[0].number);
    }
    assert forall i :: 0 <= i < |q[1..]| ==> q[1..][i] == q[i + 1];
  }

  // ------------------------------------------------------------------ what the tasks do

  /** What is pending after one deed done at `now` by the tasks, `count` sleepers having been registered before. */
  function Performed(q: seq<Sleeper>, count: nat, now: real, deed: Deed): seq<Sleeper> {
    match deed
    case Sleep(seconds) => if seconds <= 0.0 then q else Inserted(q, Sleeper(now + seconds, count))
    case CancelSleeper(number) => Removed(q, number)
  }

  /** It is the deadline of one that is pending, and nothing pending is due before. */
  predicate IsFirstDue(q: seq<Sleeper>, at: real) {
    && (exists i :: 0 <= i < |q| && q[i].deadline == at)
    && (forall i :: 0 <= i < |q| ==> at <= q[i].deadline)
  }

  function Counted(count: nat, deed: Deed): nat {
    if deed.Sleep? && 0.0 < deed.seconds then count + 1 else count
  }

  /** What is pending once the tasks have done all this at `now`. */
  function Settled(q: seq<Sleeper>, count: nat, now: real, deeds: seq<Deed>): seq<Sleeper>
    decreases |deeds|
  {
    if deeds == [] then q
    else Settled(Performed(q, count, now, deeds[0]), Counted(count, deeds[0]), now, deeds[1..])
  }

  // ------------------------------------------------------------------ the clock

  class VirtualClock {
    var now: real
    var sleepers: seq<Sleeper>
    var count: nat
    ghost var registry: seq<Sleeper>
    ghost var woken: seq<Wake>
    ghost var cancelled: set<nat>

    constructor (start: real)
      ensures Valid() && now == start && sleepers == [] && registry == [] && woken == [] && cancelled == {}
    {
      now, sleepers, count := start, [], 0;
      registry, woken, cancelled := [], [], {};
    }

    ghost predicate Shape()
      reads this
    {
      && Sorted(sleepers) && DistinctNumbers(sleepers) && Accounted(sleepers, woken, cancelled, count)
      && Causal(woken, now) && IsAhead(sleepers, woken, now)
      && count == |registry| && AreGenuine(registry, sleepers, woken)
    }

    /** At rest: time is exactly where every wake so far has happened, and nothing due is still pending. */
    ghost predicate Valid()
      reads this
    {
      Shape() && AllLater(sleepers, now)
    }

    /** Park for a while; a duration of nothing only yields. */
    method Sleep(seconds: real)
      requires Valid()
      modifies this`sleepers, this`count, this`registry
      ensures Valid()
      ensures registry == old(registry) + if seconds <= 0.0 then [] else [Sleeper(now + seconds, |old(registry)|)]
      ensures sleepers == if seconds <= 0.0 then old(sleepers)
                          else Inserted(old(sleepers), Sleeper(now + seconds, |old(registry)|))
    {
      if seconds <= 0.0 {
        return;
      }
      var entry := Sleeper(now + seconds, count);
      InsertIsAccounted(sleepers, entry, woken, cancelled, count);
      InsertSorts(sleepers, entry);
      InsertStaysAhead(sleepers, entry, woken, now);
      InsertIsGenuine(registry, sleepers, woken, entry);
      registry := registry + [entry];
      sleepers := Inserted(sleepers, entry);
      count := count + 1;
    }

    /** Whoever stops waiting leaves no deadline behind; one that is gone already is left alone. */
    method Discard(number: nat)
      requires Valid()
      modifies this`sleepers, this`cancelled
      ensures Valid() && sleepers == Removed(old(sleepers), number)
      ensures cancelled == if Holds(old(sleepers), number) then old(cancelled) + {number} else old(cancelled)
    {
      RemoveKeepsOrder(sleepers, number);
      RemoveStaysAhead(sleepers, number, woken, now);
      if Holds(sleepers, number) {
        RemoveIsAccounted(sleepers, number, woken, cancelled, count);
        cancelled := cancelled + {number};
      } else {
        RemoveNothing(sleepers, number);
      }
      sleepers := Removed(sleepers, number);
    }

    /** Let the woken tasks run to their next park. Time does not move. */
    method Settle(deeds: seq<Deed>, ghost least: real, ghost limit: real)
      requires Valid() && Paced(deeds, least) && limit <= now + least
      modifies this`sleepers, this`count, this`cancelled, this`registry
      ensures Valid() && old(cancelled) <= cancelled && old(registry) <= registry
      ensures sleepers == Settled(old(sleepers), |old(registry)|, now, deeds)
      ensures DueBefore(sleepers, limit) <= DueBefore(old(sleepers), limit)
    {
      for k := 0 to |deeds|
        invariant Valid() && old(cancelled) <= cancelled && old(registry) <= registry
        invariant Settled(old(sleepers), |old(registry)|, now, deeds) == Settled(sleepers, |registry|, now, deeds[k..])
        invariant DueBefore(sleepers, limit) <= DueBefore(old(sleepers), limit)
      {
        assert deeds[k..][0] == deeds[k] && deeds[k..][1..] == deeds[k + 1..];
        Perform(deeds[k], least, limit);
      }
    }

    method Perform(deed: Deed, ghost least: real, ghost limit: real)
      requires Valid() && limit <= now + least
      requires deed.Sleep? ==> deed.seconds <= 0.0 || least <= deed.seconds
      modifies this`sleepers, this`count, this`cancelled, this`registry
      ensures Valid() && old(cancelled) <= cancelled && old(registry) <= registry
      ensures sleepers == Performed(old(sleepers), |old(registry)|, now, deed)
      ensures |registry| == Counted(|old(registry)|, deed)
      ensures DueBefore(sleepers, limit) <= DueBefore(old(sleepers), limit)
    {
      match deed
      case Sleep(seconds) =>
        if seconds > 0.0 {
          InsertLateAddsNone(sleepers, Sleeper(now + seconds, count), limit);
        }
        Sleep(seconds);
      case CancelSleeper(number) =>
        RemoveAddsNone(sleepers, number, limit);
        Discard(number);
    }

    /** Wake everything due now, in registration order. */
    method Fire(ghost limit: real)
      requires Shape() && sleepers != [] && sleepers[0].deadline == now
      modifies this`sleepers, this`woken
      ensures Valid() && old(woken) <= woken
      ensures DueBefore(sleepers, limit) <= DueBefore(old(sleepers), limit)
      ensures now < limit ==> DueBefore(sleepers, limit) < DueBefore(old(sleepers), limit)
    {
      ghost var due := DueBefore(sleepers, limit);
      while sleepers != [] && sleepers[0].deadline <= now
        invariant Shape() && old(woken) <= woken
        invariant DueBefore(sleepers, limit) <= due
        invariant now < limit && sleepers != old(sleepers) ==> DueBefore(sleepers, limit) < due
        decreases |sleepers|
      {
        WakeIsAccounted(sleepers, woken, cancelled, count, now);
        woken := woken + [Wake(sleepers[0], now)];
        sleepers := sleepers[1..];
      }
    }

    /** Move time to the next deadline, fire what is due there, and let the woken tasks run. */
    method FireNext(deeds: seq<Deed>, ghost least: real, ghost limit: real)
      requires Valid() && sleepers != [] && Paced(deeds, least) && limit <= sleepers[0].deadline + least
      modifies this
      ensures Valid() && now == old(sleepers[0].deadline)
      ensures old(woken) <= woken && old(registry) <= registry && old(cancelled) <= cancelled
      ensures now < limit ==> DueBefore(sleepers, limit) < DueBefore(old(sleepers), limit)
    {
      now := Max(now, sleepers[0].deadline);
      Fire(limit);
      Settle(deeds, least, limit);
    }

    /** Time ends at `target`; on the way every deadline that comes due wakes its sleeper. `turns(n)` is what
        the tasks do the n-th time they get to run: anything, as long as every sleep takes at least `least`.
        Time then ends where it should, everything due has woken at its own deadline and in order, and
        nothing else has; and the call returns, however many sleepers keep being registered. */
    method AdvanceTo(target: real, turns: nat -> seq<Deed>, ghost least: real)
      requires Valid() && 0.0 < least && forall n: nat :: Paced(turns(n), least)
      modifies this
      ensures Valid() && now == Max(old(now), target)
      ensures old(woken) <= woken && old(registry) <= registry && old(cancelled) <= cancelled
      ensures AreServed(registry, woken, cancelled, now)
    {
      ghost var base := now;
      ghost var left := SomeFit(target - now, least);
      Settle(turns(0), least, base + least);
      var turn := 1;
      while sleepers != [] && sleepers[0].deadline <= target
        invariant Valid() && old(woken) <= woken && old(registry) <= registry && old(cancelled) <= cancelled
        invariant old(now) <= now <= Max(old(now), target) && base <= now
        invariant Fits(target - base, left, least)
        decreases left, DueBefore(sleepers, base + least)
      {
        if sleepers[0].deadline >= base + least {
          OneFewerFits(target - base, left, target - sleepers[0].deadline, least);
          base, left := sleepers[0].deadline, left - 1;
        }
        FireNext(turns(turn), least, base + least);
        turn := turn + 1;
      }
      now := Max(now, target);
      Settle(turns(turn), least, now + least);
      DueHaveWoken(registry, sleepers, woken, cancelled, count, now);
    }

    /** Jump to the next wakeup; None if there is none. First the tasks get to run; the wakeup aimed at is the first
        of those pending then. They get to run once more before time moves, so the sleeper aimed at may be gone and
        an earlier one there; time still ends at the instant aimed at. */
    method AdvanceToNext(turns: nat -> seq<Deed>, ghost least: real) returns (at: Option<real>)
      requires Valid() && 0.0 < least && forall n: nat :: Paced(turns(n), least)
      modifies this
      ensures Valid() && old(woken) <= woken && old(registry) <= registry && old(cancelled) <= cancelled
      ensures var pending := Settled(old(sleepers), |old(registry)|, old(now), turns(0));
        && (at.None? <==> pending == [])
        && (at.None? ==> now == old(now) && sleepers == [])
        && (at.Some? ==> at.value == now > old(now) && IsFirstDue(pending, now))
      ensures AreServed(registry, woken, cancelled, now)
    {
      Settle(turns(0), least, now + least);
      if sleepers == [] {
        DueHaveWoken(registry, sleepers, woken, cancelled, count, now);
        return None;
      }
      FirstIsDue(sleepers);
      AdvanceTo(sleepers[0].deadline, (n: nat) => turns(n + 1), least);
      at := Some(now);
    }
  }

  lemma FirstIsDue(q: seq<Sleeper>)
    requires q != [] && Sorted(q)
    ensures IsFirstDue(q, q[0].deadline)
  {
    assert q[0].deadline == q[0].deadline;
  }

  // ------------------------------------------------------------------ moving time

  /** A span of time is shorter than `n` stretches of length `least`. */
  ghost predicate Fits(span: real, n: nat, least: real) {
    span < n as real * least
  }

  lemma SomeFit(span: real, least: real) returns (n: nat)
    requires 0.0 < least
    ensures Fits(span, n, least)
  {
    if span < 0.0 {
      n := 0;
    } else {
      var ratio := span / least;
      assert ratio * least == span;
      NonNegativeRatio(ratio, least);
      n := ratio.Floor + 1;
      SmallerProduct(ratio, n as real, least);
    }
  }

  lemma NonNegativeRatio(ratio: real, least: real)
    requires 0.0 < least && 0.0 <= ratio * least
    ensures 0.0 <= ratio
  {
    if ratio < 0.0 {
      SmallerProduct(ratio, 0.0, least);
    }
  }

  lemma SmallerProduct(a: real, b: real, least: real)
    requires a < b && 0.0 < least
    ensures a * least < b * least
  {
    assert (b - a) * least > 0.0;
  }

  lemma OneFewerFits(span: real, n: nat, less: real, least: real)
    requires 0.0 < least && Fits(span, n, least) && 0.0 <= less <= span - least
    ensures 1 <= n && Fits(less, n - 1, least)
  {
    assert n as real * least == (n - 1) as real * least + least;
  }

  lemma InsertStaysAhead(q: seq<Sleeper>, s: Sleeper, woken: seq<Wake>, now: real)
    requires Sorted(q) && forall i :: 0 <= i < |q| ==> q[i].number != s.number
    requires Causal(woken, now) && IsAhead(q, woken, now) && AllLater(q, now) && now < s.deadline
    ensures IsAhead(Inserted(q, s), woken, now) && AllLater(Inserted(q, s), now)
  {
    InsertSorts(q, s);
    var r := Inserted(q, s);
    forall i | 0 <= i < |r| ensures now < r[i].deadline {
      assert r[i] in r;
    }
  }

  lemma RemoveStaysAhead(q: seq<Sleeper>, number: nat, woken: seq<Wake>, now: real)
    requires Sorted(q) && DistinctNumbers(q)
    requires Causal(woken, now) && IsAhead(q, woken, now) && AllLater(q, now)
    ensures IsAhead(Removed(q, number), woken, now) && AllLater(Removed(q, number), now)
  {
    RemoveKeepsOrder(q, number);
    var r := Removed(q, number);
    forall i | 0 <= i < |r| ensures now < r[i].deadline {
      assert r[i] in r;
    }
  }

  lemma {:induction false} RemoveNothing(q: seq<Sleeper>, number: nat)
    requires !Holds(q, number)
    ensures Removed(q, number) == q
  {
    if q != [] {
      assert forall i :: 0 <= i < |q[1..]| ==> q[1..][i] == q[i + 1];
      RemoveNothing(q[1..], number);
    }
  }
}

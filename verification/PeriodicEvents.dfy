/** Periodic events that are handled while the clock stands still: how often each one fires. */
module PeriodicEvents {
  import opened Arithmetic
  import opened Sequences
  import opened ClockQueue
  import opened ClockRuns

  // Number of activations that are due: at t, t + p, t + 2p, ... up to now, or only at t without a period
  function Due(t: nat, p: nat, now: nat): nat
    decreases if t <= now then now - t + 1 else 0
  {
    if now < t then 0 else if p == 0 then 1 else 1 + Due(t + p, p, now)
  }

  lemma {:induction false} DueBounds(t: nat, p: nat, now: nat)
    requires 0 < p
    ensures t <= now ==> 0 < Due(t, p, now) && (Due(t, p, now) - 1) * p <= now - t < (Due(t, p, now) - 1) * p + p
    ensures now < t ==> Due(t, p, now) == 0
    decreases if t <= now then now - t + 1 else 0
  {
    if t <= now {
      DueBounds(t + p, p, now);
      var n := Due(t + p, p, now);
      assert t + p <= now ==> (n - 1) * p + p == n * p;
    }
  }

  // How often a periodic event first due at t is due by now
  function Activations(t: nat, p: nat, now: nat): nat
    requires 0 < p
  {
    if t <= now then (now - t) / p + 1 else 0
  }

  // The activation after those
  function Following(t: nat, p: nat, now: nat): nat
    requires 0 < p
  {
    t + Activations(t, p, now) * p
  }

  lemma {:induction false} DueIsFloor(t: nat, p: nat, now: nat)
    requires 0 < p
    ensures Due(t, p, now) == Activations(t, p, now)
  {
    DueBounds(t, p, now);
    if t <= now {
      Quotient(now - t, p, Due(t, p, now) - 1);
    }
  }

  // Exactly one activation is due
  lemma {:induction false} DueOnce(t: nat, p: nat, now: nat)
    requires 0 < p
    ensures Activations(t, p, now) == 1 <==> t <= now < t + p
  {
    DueBounds(t, p, now);
    DueIsFloor(t, p, now);
  }

  // The period of every queued event is known; it is zero for an event that is not periodic
  ghost predicate Known<E>(q: seq<Entry<E>>, period: map<E, nat>) {
    forall i :: 0 <= i < |q| ==> q[i].event in period
  }

  function Total<E(==)>(q: seq<Entry<E>>, period: map<E, nat>, now: nat): nat {
    if q == [] then 0
    else (if q[0].event in period then Due(q[0].time, period[q[0].event], now) else 0) + Total(q[1..], period, now)
  }

  lemma {:induction false} TotalInserted<E>(q: seq<Entry<E>>, x: Entry<E>, k: nat, r: seq<Entry<E>>,
                                            period: map<E, nat>, now: nat)
    requires InsertsAt(q, x, k, r) && x.event in period
    ensures Total(r, period, now) == Total(q, period, now) + Due(x.time, period[x.event], now)
  {
    if k == 0 {
      assert r[1..] == q;
    } else {
      TotalInserted(q[1..], x, k - 1, r[1..], period, now);
    }
  }

  function Next<E>(x: Entry<E>, period: map<E, nat>): Entry<E>
    requires x.event in period
  {
    Entry(x.event, x.time + period[x.event])
  }

  // The queue after an event that is not queued was started
  function Started<E>(q: seq<Entry<E>>, x: Entry<E>, now: nat): seq<Entry<E>> {
    if now < x.time then Inserted(q, x) else [x] + q
  }

  lemma {:induction false} StartedIs<E>(q: seq<Entry<E>>, x: Entry<E>, now: nat) returns (k: nat)
    requires Ordered(q, now)
    ensures InsertsAt(q, x, k, Started(q, x, now)) && Ordered(Started(q, x, now), now)
  {
    k := if now < x.time then Position(q, x.time) else 0;
    if now < x.time {
      InsertedOrdered(q, x, k, Started(q, x, now), now);
    } else {
      PushedOrdered(q, x, Started(q, x, now), now);
    }
  }

  ghost predicate Schedulable<E>(q: seq<Entry<E>>, period: map<E, nat>, now: nat) {
    Ordered(q, now) && Distinct(q) && Known(q, period)
  }

  // One event is read from the queue and, if it is periodic, started again one period later
  function Handled<E>(q: seq<Entry<E>>, period: map<E, nat>, now: nat): seq<Entry<E>>
    requires q != [] && q[0].event in period
  {
    if period[q[0].event] == 0 then q[1..] else Started(q[1..], Next(q[0], period), now)
  }

  lemma {:induction false} TailIs<E>(q: seq<Entry<E>>, period: map<E, nat>, now: nat)
    requires Schedulable(q, period, now) && q != []
    ensures Schedulable(q[1..], period, now)
    ensures forall e :: Queued(q[1..], e) <==> Queued(q, e) && e != q[0].event
  {
    assert RemovesAt(q, 0, q[1..]);
    RemovedOrdered(q, 0, q[1..], now);
    RemovedMembers(q, 0, q[1..]);
  }

  lemma {:induction false} HandledIs<E>(q: seq<Entry<E>>, period: map<E, nat>, now: nat) returns (k: nat)
    requires Schedulable(q, period, now) && q != [] && 0 < period[q[0].event]
    ensures InsertsAt(q[1..], Next(q[0], period), k, Handled(q, period, now))
    ensures Schedulable(Handled(q, period, now), period, now)
    ensures forall e :: Queued(Handled(q, period, now), e) <==> Queued(q, e)
  {
    var t, x := q[1..], Next(q[0], period);
    TailIs(q, period, now);
    k := StartedIs(t, x, now);
    InsertedMembers(t, x, k, Started(t, x, now));
    InsertedKnown(t, x, k, Started(t, x, now), period);
  }

  lemma {:induction false} InsertedKnown<E>(q: seq<Entry<E>>, x: Entry<E>, k: nat, r: seq<Entry<E>>,
                                            period: map<E, nat>)
    requires InsertsAt(q, x, k, r) && Known(q, period) && x.event in period
    ensures Known(r, period)
  {
  }

  lemma {:induction false} HandledProgress<E>(q: seq<Entry<E>>, period: map<E, nat>, now: nat)
    requires Schedulable(q, period, now) && q != [] && q[0].time <= now
    ensures Schedulable(Handled(q, period, now), period, now)
    ensures Total(Handled(q, period, now), period, now) + 1 == Total(q, period, now)
  {
    if period[q[0].event] == 0 {
      TailIs(q, period, now);
    } else {
      var k := HandledIs(q, period, now);
      TotalInserted(q[1..], Next(q[0], period), k, Handled(q, period, now), period, now);
    }
  }

  // The event loop with the clock standing still: the queue it leaves and the events it fires
  function HandleAll<E>(q: seq<Entry<E>>, period: map<E, nat>, now: nat): (seq<Entry<E>>, seq<E>)
    requires Schedulable(q, period, now)
    decreases Total(q, period, now)
  {
    if q == [] || now < q[0].time then (q, [])
    else
      HandledProgress(q, period, now);
      var (r, fired) := HandleAll(Handled(q, period, now), period, now);
      (r, [q[0].event] + fired)
  }

  // The loop fires e n times and leaves it queued for the given time
  ghost predicate Fires<E>(result: (seq<Entry<E>>, seq<E>), e: E, n: nat, time: nat) {
    multiset(result.1)[e] == n && Contains(result.0, Entry(e, time))
  }

  // The first activation that is not due
  function Upcoming(t: nat, p: nat, now: nat): nat
    decreases if t <= now then now - t + 1 else 0
  {
    if t <= now && 0 < p then Upcoming(t + p, p, now) else t
  }

  lemma {:induction false} UpcomingIs(t: nat, p: nat, now: nat)
    requires 0 < p
    ensures Upcoming(t, p, now) == t + Due(t, p, now) * p
    decreases if t <= now then now - t + 1 else 0
  {
    if t <= now {
      UpcomingIs(t + p, p, now);
    }
  }

  lemma {:induction false} FiresAfterStep<E>(q: seq<Entry<E>>, period: map<E, nat>, now: nat, e: E, n: nat, time: nat)
    requires Schedulable(q, period, now) && q != [] && q[0].time <= now
    requires Schedulable(Handled(q, period, now), period, now)
    requires Fires(HandleAll(Handled(q, period, now), period, now), e, n, time)
    ensures Fires(HandleAll(q, period, now), e, if e == q[0].event then n + 1 else n, time)
  {
  }

  lemma {:induction false} NextDue(t: nat, p: nat, now: nat)
    requires t <= now && 0 < p
    ensures Due(t, p, now) == Due(t + p, p, now) + 1 && Upcoming(t, p, now) == Upcoming(t + p, p, now)
  {
  }

  // Nothing is due
  lemma {:induction false} FiresNothing<E>(q: seq<Entry<E>>, period: map<E, nat>, now: nat, i: nat)
    requires Schedulable(q, period, now) && i < |q| && now < q[0].time && 0 < period[q[i].event]
    ensures var t, p := q[i].time, period[q[i].event];
      Fires(HandleAll(q, period, now), q[i].event, Due(t, p, now), Upcoming(t, p, now))
  {
    OrderedPairs(q, now);
    assert q[i] == Entry(q[i].event, Upcoming(q[i].time, period[q[i].event], now));
  }

  lemma {:induction false} FiresDue<E>(q: seq<Entry<E>>, period: map<E, nat>, now: nat, i: nat)
    requires Schedulable(q, period, now) && i < |q| && 0 < period[q[i].event]
    ensures var t, p := q[i].time, period[q[i].event];
      Fires(HandleAll(q, period, now), q[i].event, Due(t, p, now), Upcoming(t, p, now))
    decreases Total(q, period, now)
  {
    var e, t, p := q[i].event, q[i].time, period[q[i].event];
    if now < q[0].time {
      FiresNothing(q, period, now, i);
    } else {
      var h := Handled(q, period, now);
      HandledProgress(q, period, now);
      if i == 0 {
        var k := HandledIs(q, period, now);
        FiresDue(h, period, now, k);
        NextDue(t, p, now);
        FiresAfterStep(q, period, now, e, Due(t + p, p, now), Upcoming(t + p, p, now));
      } else {
        DistinctFrom(q, 0);
        var j := StaysAt(q, period, now, i);
        FiresDue(h, period, now, j);
        FiresAfterStep(q, period, now, e, Due(t, p, now), Upcoming(t, p, now));
      }
    }
  }

  // An entry behind the head is still queued after the head has been handled
  lemma {:induction false} StaysAt<E>(q: seq<Entry<E>>, period: map<E, nat>, now: nat, i: nat) returns (j: nat)
    requires Schedulable(q, period, now) && 0 < i < |q|
    ensures j < |Handled(q, period, now)| && Handled(q, period, now)[j] == q[i]
  {
    j := i - 1;
    if 0 < period[q[0].event] {
      var k := HandledIs(q, period, now);
      j := if i - 1 < k then i - 1 else i;
    }
  }

  lemma {:induction false} ClosedForm(t: nat, p: nat, now: nat)
    requires 0 < p
    ensures Due(t, p, now) == Activations(t, p, now) && Upcoming(t, p, now) == Following(t, p, now)
  {
    DueIsFloor(t, p, now);
    UpcomingIs(t, p, now);
  }

  // Every periodic event fires once for each due activation and is left queued for the first one that is not due
  lemma {:induction false} FiresOncePerDueActivation<E>(q: seq<Entry<E>>, period: map<E, nat>, now: nat, i: nat)
    requires Schedulable(q, period, now) && i < |q| && 0 < period[q[i].event]
    ensures var t, p := q[i].time, period[q[i].event];
      Fires(HandleAll(q, period, now), q[i].event, Activations(t, p, now), Following(t, p, now))
  {
    FiresDue(q, period, now, i);
    ClosedForm(q[i].time, period[q[i].event], now);
  }

  // An event that is not periodic fires once and leaves the queue if it is due, and stays as it is otherwise
  lemma {:induction false} FiresOneShot<E>(q: seq<Entry<E>>, period: map<E, nat>, now: nat, i: nat)
    requires Schedulable(q, period, now) && i < |q| && period[q[i].event] == 0
    ensures var (r, fired) := HandleAll(q, period, now);
      if q[i].time <= now then multiset(fired)[q[i].event] == 1 && !Queued(r, q[i].event)
      else multiset(fired)[q[i].event] == 0 && Contains(r, q[i])
    decreases Total(q, period, now)
  {
    if q[0].time <= now {
      var h := Handled(q, period, now);
      HandledProgress(q, period, now);
      LeavesNothingDue(h, period, now);
      if i == 0 {
        TailIs(q, period, now);
        assert q[0].event !in HandleAll(h, period, now).1;
      } else {
        DistinctFrom(q, 0);
        var j := StaysAt(q, period, now, i);
        FiresOneShot(h, period, now, j);
      }
    } else {
      OrderedPairs(q, now);
    }
  }

  // Nothing is due afterwards, every event that is queued was so before, all periodic ones still are,
  // and nothing but queued events is fired
  lemma {:induction false} LeavesNothingDue<E>(q: seq<Entry<E>>, period: map<E, nat>, now: nat)
    requires Schedulable(q, period, now)
    ensures var (r, fired) := HandleAll(q, period, now);
      && Schedulable(r, period, now)
      && (forall i :: 0 <= i < |r| ==> now < r[i].time)
      && (forall e :: Queued(r, e) ==> Queued(q, e))
      && (forall e :: Queued(q, e) && e in period && 0 < period[e] ==> Queued(r, e))
      && (forall e :: e in fired ==> Queued(q, e))
    decreases Total(q, period, now)
  {
    if q == [] || now < q[0].time {
      OrderedPairs(q, now);
    } else {
      HandledProgress(q, period, now);
      LeavesNothingDue(Handled(q, period, now), period, now);
      HandledMembers(q, period, now);
    }
  }

  lemma {:induction false} HandledMembers<E>(q: seq<Entry<E>>, period: map<E, nat>, now: nat)
    requires Schedulable(q, period, now) && q != []
    ensures forall e :: Queued(Handled(q, period, now), e) <==> Queued(q, e) && (e == q[0].event ==> 0 < period[e])
    ensures Queued(q, q[0].event)
  {
    TailIs(q, period, now);
    if 0 < period[q[0].event] {
      var k := HandledIs(q, period, now);
    }
  }

  // The loop came from q0 to q and fired some events on its way
  ghost predicate Reaches<E>(q0: seq<Entry<E>>, q: seq<Entry<E>>, fired: seq<E>, period: map<E, nat>, now: nat) {
    && Schedulable(q0, period, now) && Schedulable(q, period, now)
    && HandleAll(q0, period, now).0 == HandleAll(q, period, now).0
    && HandleAll(q0, period, now).1 == fired + HandleAll(q, period, now).1
  }

  lemma {:induction false} ReachesStep<E>(q0: seq<Entry<E>>, q: seq<Entry<E>>, fired: seq<E>, period: map<E, nat>,
                                          now: nat)
    requires Reaches(q0, q, fired, period, now) && q != [] && q[0].time <= now
    ensures Reaches(q0, Handled(q, period, now), fired + [q[0].event], period, now)
    ensures Total(Handled(q, period, now), period, now) < Total(q, period, now)
  {
    HandledProgress(q, period, now);
    var f := HandleAll(Handled(q, period, now), period, now).1;
    assert fired + ([q[0].event] + f) == fired + [q[0].event] + f;
  }

  lemma {:induction false} ReachesStart<E>(q: seq<Entry<E>>, period: map<E, nat>, now: nat)
    requires Schedulable(q, period, now)
    ensures Reaches(q, q, [], period, now)
  {
    assert [] + HandleAll(q, period, now).1 == HandleAll(q, period, now).1;
  }

  lemma {:induction false} ReachesEnd<E>(q0: seq<Entry<E>>, q: seq<Entry<E>>, fired: seq<E>, period: map<E, nat>,
                                         now: nat)
    requires Reaches(q0, q, fired, period, now) && (q == [] || now < q[0].time)
    ensures HandleAll(q0, period, now) == (q, fired)
  {
    assert HandleAll(q, period, now) == (q, []);
    assert fired + [] == fired;
  }

  lemma {:induction false} HandledFront<E>(x: Entry<E>, q: seq<Entry<E>>, period: map<E, nat>, now: nat)
    requires x.event in period
    ensures Handled([x] + q, period, now) == if period[x.event] == 0 then q else Started(q, Next(x, period), now)
  {
    assert ([x] + q)[1..] == q;
  }

  lemma {:induction false} StartedQueue<E>(s: ClockState<E>, event: E, time: nat)
    ensures StartAt(s, false, event, time).queue == Started(s.queue, Entry(event, time), s.now)
  {
  }

  lemma {:induction false} ReadSplits<E>(s: ClockState<E>)
    requires s.queue != [] && s.queue[0].time <= s.now
    ensures s.queue == [s.queue[0]] + ReadFirstPending(s).1.queue
  {
    assert IndexOf(s.queue, s.queue[0].event) == 0;
  }
}

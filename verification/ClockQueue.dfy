/**
 * The event queue of the clock as a sequence of entries, its operations, and the previous pointers in terms of it.
 */
module ClockQueue {
  import opened Sequences

  datatype Entry<E> = Entry(event: E, time: nat)

  datatype ClockState<E> = ClockState(queue: seq<Entry<E>>, cache: Option<E>, now: nat)

  // A prefix of due entries in any order is followed by later entries in the order of their times
  ghost predicate Ordered<E>(q: seq<Entry<E>>, now: nat) {
    forall i, j {:trigger Pair(i, j)} :: Pair(i, j) && 0 <= i < j < |q| && now < q[i].time ==> q[i].time <= q[j].time
  }

  ghost predicate Distinct<E>(q: seq<Entry<E>>) {
    forall i, j {:trigger Pair(i, j)} :: Pair(i, j) && 0 <= i < j < |q| ==> q[i].event != q[j].event
  }

  lemma {:induction false} OrderedPairs<E>(q: seq<Entry<E>>, now: nat)
    requires Ordered(q, now)
    ensures forall i, j :: 0 <= i < j < |q| && now < q[i].time ==> q[i].time <= q[j].time
  {
    forall i, j | 0 <= i < j < |q| && now < q[i].time ensures q[i].time <= q[j].time {
      assert Pair(i, j);
    }
  }

  lemma {:induction false} DistinctPairs<E>(q: seq<Entry<E>>)
    requires Distinct(q)
    ensures forall i, j :: 0 <= i < j < |q| ==> q[i].event != q[j].event
  {
    forall i, j | 0 <= i < j < |q| ensures q[i].event != q[j].event {
      assert Pair(i, j);
    }
  }

  lemma {:induction false} DistinctFrom<E>(q: seq<Entry<E>>, k: nat)
    requires Distinct(q) && k < |q|
    ensures forall i :: 0 <= i < |q| && q[i].event == q[k].event ==> i == k
  {
    forall i | 0 <= i < |q| && i != k ensures q[i].event != q[k].event {
      assert Pair(i, k) && Pair(k, i);
    }
  }

  ghost predicate Queued<E>(q: seq<Entry<E>>, event: E) {
    exists i :: 0 <= i < |q| && q[i].event == event
  }

  ghost predicate Contains<E>(q: seq<Entry<E>>, x: Entry<E>) {
    exists i :: 0 <= i < |q| && q[i] == x
  }

  // Number of entries in front of a newly inserted time
  function Position<E>(q: seq<Entry<E>>, time: nat): (k: nat)
    ensures k <= |q|
    ensures k > 0 ==> q[k - 1].time <= time
    ensures forall i :: k <= i < |q| ==> time < q[i].time
  {
    if q == [] || q[|q| - 1].time <= time then |q| else Position(q[..|q| - 1], time)
  }

  lemma {:induction false} PositionIs<E>(q: seq<Entry<E>>, time: nat, k: nat)
    requires k <= |q|
    requires k > 0 ==> q[k - 1].time <= time
    requires forall i :: k <= i < |q| ==> time < q[i].time
    ensures Position(q, time) == k
  {
  }

  function Inserted<E>(q: seq<Entry<E>>, x: Entry<E>): seq<Entry<E>> {
    var k := Position(q, x.time);
    q[..k] + [x] + q[k..]
  }

  function EventAt<E>(q: seq<Entry<E>>, k: nat): Option<E> {
    if k < |q| then Some(q[k].event) else None
  }

  // The cached search start after an insertion at index k
  function InsertedCache<E(==)>(q: seq<Entry<E>>, cache: Option<E>, event: E, k: nat): Option<E> {
    if q == [] then cache
    else if k == 0 then (if cache.Some? then Some(event) else None)
    else if cache == EventAt(q, k) then Some(event)
    else cache
  }

  function Enqueue<E(==)>(s: ClockState<E>, x: Entry<E>): ClockState<E> {
    s.(queue := Inserted(s.queue, x), cache := InsertedCache(s.queue, s.cache, x.event, Position(s.queue, x.time)))
  }

  function PushHead<E>(s: ClockState<E>, x: Entry<E>): ClockState<E> {
    s.(queue := [x] + s.queue)
  }

  // Index of event, or |q| when it is not queued
  function IndexOf<E(==)>(q: seq<Entry<E>>, event: E): (k: nat)
    ensures k <= |q|
    ensures k < |q| ==> q[k].event == event
    ensures forall i :: 0 <= i < k ==> q[i].event != event
  {
    if q == [] || q[0].event == event then 0 else 1 + IndexOf(q[1..], event)
  }

  // The cached search start after the removal of index k
  function RemovedCache<E(==)>(q: seq<Entry<E>>, cache: Option<E>, k: nat): Option<E>
    requires k < |q|
  {
    if cache == Some(q[k].event) then EventAt(q, k + 1) else cache
  }

  function Dequeue<E(==)>(s: ClockState<E>, event: E): ClockState<E> {
    var k := IndexOf(s.queue, event);
    if k == |s.queue| then s
    else s.(queue := s.queue[..k] + s.queue[k + 1..], cache := RemovedCache(s.queue, s.cache, k))
  }

  function ReadFirstPending<E(==)>(s: ClockState<E>): (Option<E>, ClockState<E>) {
    if s.queue == [] || s.now < s.queue[0].time then (None, s)
    else (Some(s.queue[0].event), Dequeue(s, s.queue[0].event))
  }

  // First index from i on whose time is later than now
  function FirstFuture<E>(q: seq<Entry<E>>, i: nat, now: nat): (k: nat)
    requires i <= |q|
    ensures i <= k <= |q|
    ensures forall j :: i <= j < k ==> q[j].time <= now
    ensures k < |q| ==> now < q[k].time
    decreases |q| - i
  {
    if i < |q| && q[i].time <= now then FirstFuture(q, i + 1, now) else i
  }

  function SearchStart<E(==)>(s: ClockState<E>): (k: nat)
    ensures k <= |s.queue|
  {
    if s.cache.None? then 0 else IndexOf(s.queue, s.cache.value)
  }

  function NextStartTime<E(==)>(s: ClockState<E>): (nat, ClockState<E>) {
    var k := FirstFuture(s.queue, SearchStart(s), s.now);
    (if k < |s.queue| then s.queue[k].time else 0, s.(cache := EventAt(s.queue, k)))
  }

  function DequeueAll<E>(s: ClockState<E>): ClockState<E> {
    s.(queue := [], cache := None)
  }

  // Only an event that is marked as queued is left alone
  function StartAt<E(==)>(s: ClockState<E>, marked: bool, event: E, time: nat): ClockState<E> {
    if marked then s
    else if s.now < time then Enqueue(s, Entry(event, time))
    else PushHead(s, Entry(event, time))
  }

  // ---- blocks

  // first index of the run of equal times containing i
  function BlockStart<E>(q: seq<Entry<E>>, i: nat): (b: nat)
    requires i < |q|
    ensures b <= i
    ensures forall j :: b <= j <= i ==> q[j].time == q[i].time
    ensures b > 0 ==> q[b - 1].time != q[i].time
  {
    if i > 0 && q[i - 1].time == q[i].time then BlockStart(q, i - 1) else i
  }

  lemma {:induction false} BlockStartIs<E>(q: seq<Entry<E>>, i: nat, b: nat)
    requires b <= i < |q|
    requires forall j :: b <= j <= i ==> q[j].time == q[i].time
    requires b > 0 ==> q[b - 1].time != q[i].time
    ensures BlockStart(q, i) == b
  {
  }

  // one past the last index of the run of equal times that starts at i
  function BlockEnd<E>(q: seq<Entry<E>>, i: nat): (e: nat)
    requires i < |q|
    ensures i < e <= |q|
    ensures forall j :: i <= j < e ==> q[j].time == q[i].time
    ensures e < |q| ==> q[e].time != q[i].time
    decreases |q| - i
  {
    if i + 1 < |q| && q[i + 1].time == q[i].time then BlockEnd(q, i + 1) else i + 1
  }

  function Predecessor<E>(q: seq<Entry<E>>, i: nat): Option<E>
    requires i < |q|
  {
    var b := BlockStart(q, i);
    if b == 0 then None else Some(q[b - 1].event)
  }

  // x is later than now and k is its place in the sorted future suffix
  ghost predicate Place<E>(q: seq<Entry<E>>, x: Entry<E>, k: nat, now: nat) {
    && Ordered(q, now) && now < x.time && k <= |q|
    && (k > 0 ==> q[k - 1].time <= x.time)
    && (forall i :: k <= i < |q| ==> x.time < q[i].time)
  }

  lemma {:induction false} InsertedMembers<E>(q: seq<Entry<E>>, x: Entry<E>, k: nat, r: seq<Entry<E>>)
    requires InsertsAt(q, x, k, r) && !Queued(q, x.event) && Distinct(q)
    ensures Distinct(r)
    ensures forall event :: Queued(r, event) <==> event == x.event || Queued(q, event)
  {
    DistinctPairs(q);
    forall event ensures Queued(r, event) <==> event == x.event || Queued(q, event) {
      if i :| 0 <= i < |q| && q[i].event == event {
        assert r[if i < k then i else i + 1].event == event;
      }
    }
  }

  lemma {:induction false} InsertedIs<E>(q: seq<Entry<E>>, x: Entry<E>, k: nat, r: seq<Entry<E>>)
    requires InsertsAt(q, x, k, r) && k == Position(q, x.time)
    ensures r == Inserted(q, x)
  {
  }

  lemma {:induction false} InsertedOrdered<E>(q: seq<Entry<E>>, x: Entry<E>, k: nat, r: seq<Entry<E>>, now: nat)
    requires InsertsAt(q, x, k, r) && Place(q, x, k, now)
    ensures Ordered(r, now)
  {
    OrderedPairs(q, now);
  }

  lemma {:induction false} PredecessorBelow<E>(q: seq<Entry<E>>, x: Entry<E>, k: nat, r: seq<Entry<E>>, i: nat)
    requires InsertsAt(q, x, k, r) && i < k
    ensures Predecessor(r, i) == Predecessor(q, i)
  {
    BlockStartIs(r, i, BlockStart(q, i));
  }

  lemma {:induction false} PredecessorAt<E>(q: seq<Entry<E>>, x: Entry<E>, k: nat, r: seq<Entry<E>>)
    requires InsertsAt(q, x, k, r)
    ensures Predecessor(r, k) ==
      if k == 0 then None else if q[k - 1].time == x.time then Predecessor(q, k - 1) else Some(q[k - 1].event)
  {
    BlockStartIs(r, k, if k > 0 && q[k - 1].time == x.time then BlockStart(q, k - 1) else k);
  }

  lemma {:induction false} PredecessorNext<E>(q: seq<Entry<E>>, x: Entry<E>, k: nat, r: seq<Entry<E>>, i: nat)
    requires InsertsAt(q, x, k, r) && k <= i < |q| && i < BlockEnd(q, k) && x.time < q[k].time
    ensures Predecessor(r, i + 1) == Some(x.event)
  {
    assert r[k + 1] == q[k];
    BlockStartIs(r, i + 1, k + 1);
  }

  lemma {:induction false} PredecessorAbove<E>(q: seq<Entry<E>>, x: Entry<E>, k: nat, r: seq<Entry<E>>, i: nat)
    requires InsertsAt(q, x, k, r) && k <= i < |q| && BlockEnd(q, k) <= i
    ensures Predecessor(r, i + 1) == Predecessor(q, i)
  {
    var b, e := BlockStart(q, i), BlockEnd(q, k);
    assert q[e - 1].time != q[e].time;
    assert r[b] == q[b - 1] && r[b + 1] == q[b];
    BlockStartIs(r, i + 1, b + 1);
  }

  // p[i] is the predecessor of q[i], for every entry later than now
  ghost predicate Backward<E>(q: seq<Entry<E>>, p: seq<Option<E>>, now: nat) {
    && |p| == |q|
    && (forall i {:trigger p[i]} :: 0 <= i < |q| && now < q[i].time ==> p[i] == Predecessor(q, i))
  }

  lemma {:induction false} InsertedBackward<E>(q: seq<Entry<E>>, p: seq<Option<E>>, x: Entry<E>, k: nat,
                                               r: seq<Entry<E>>, p': seq<Option<E>>, now: nat)
    requires InsertsAt(q, x, k, r) && Place(q, x, k, now) && Backward(q, p, now) && |p'| == |r|
    requires forall i :: 0 <= i < k ==> p'[i] == p[i]
    requires p'[k] == if k == 0 then None else if q[k - 1].time == x.time then p[k - 1] else Some(q[k - 1].event)
    requires forall i :: k < i < |r| ==> p'[i] == if i - 1 < BlockEnd(q, k) then Some(x.event) else p[i - 1]
    ensures Backward(r, p', now)
  {
    forall i | 0 <= i < |r| && now < r[i].time ensures p'[i] == Predecessor(r, i) {
      if i < k {
        PredecessorBelow(q, x, k, r, i);
      } else if i == k {
        PredecessorAt(q, x, k, r);
      } else {
        if i - 1 < BlockEnd(q, k) {
          PredecessorNext(q, x, k, r, i - 1);
        } else {
          PredecessorAbove(q, x, k, r, i - 1);
        }
      }
    }
  }

  // when every entry is later than now, the first block is the one without predecessor
  lemma {:induction false} FirstBlock<E>(q: seq<Entry<E>>, p: seq<Option<E>>, now: nat)
    requires Backward(q, p, now) && q != []
    requires forall i :: 0 <= i < |q| ==> now < q[i].time
    ensures forall i :: 0 <= i < BlockEnd(q, 0) ==> p[i] == None
    ensures BlockEnd(q, 0) < |q| ==> p[BlockEnd(q, 0)].Some?
  {
    var e := BlockEnd(q, 0);
    forall i | 0 <= i < e ensures p[i] == None {
      BlockStartIs(q, i, 0);
    }
    if e < |q| {
      BlockStartIs(q, e, e);
    }
  }

  // p1 is p after the first block got x as predecessor, r and p2 are q and p1 with x in front
  lemma {:induction false} BlockEndInserted<E>(q: seq<Entry<E>>, x: Entry<E>, k: nat, r: seq<Entry<E>>, i: nat)
    requires InsertsAt(q, x, k, r) && k <= i < |q|
    ensures BlockEnd(r, i + 1) == BlockEnd(q, i) + 1
    decreases |q| - i
  {
    assert r[i + 1] == q[i];
    if i + 1 < |q| {
      assert r[i + 2] == q[i + 1];
      BlockEndInserted(q, x, k, r, i + 1);
    }
  }

  // r and p1 are q and p with x at index k, p2 is p1 after the block behind x got x as predecessor
  lemma {:induction false} InsertedMiddle<E>(q: seq<Entry<E>>, p: seq<Option<E>>, x: Entry<E>, k: nat, pe: Option<E>,
                                             r: seq<Entry<E>>, p1: seq<Option<E>>, p2: seq<Option<E>>, now: nat)
    requires Place(q, x, k, now) && k > 0 && Backward(q, p, now)
    requires pe == if q[k - 1].time == x.time then p[k - 1] else Some(q[k - 1].event)
    requires InsertsAt(q, x, k, r) && InsertsAt(p, pe, k, p1) && |p2| == |p1|
    requires forall i :: 0 <= i < |p1| ==> p2[i] == if k < i && i < BlockEnd(r, k + 1) then Some(x.event) else p1[i]
    ensures Backward(r, p2, now) && Ordered(r, now)
  {
    InsertedOrdered(q, x, k, r, now);
    if k < |q| {
      BlockEndInserted(q, x, k, r, k);
    }
    InsertedBackward(q, p, x, k, r, p2, now);
  }

  lemma {:induction false} PushedPredecessor<E>(q: seq<Entry<E>>, x: Entry<E>, r: seq<Entry<E>>, i: nat)
    requires InsertsAt(q, x, 0, r) && 0 < i < |r| && x.time < r[i].time
    ensures Predecessor(r, i) == if i - 1 < BlockEnd(q, 0) then Some(x.event) else Predecessor(q, i - 1)
  {
    var b := BlockStart(q, i - 1);
    if b > 0 {
      BlockStartIs(r, i, b + 1);
    } else {
      BlockStartIs(r, i, 1);
    }
  }

  lemma {:induction false} PushedFront<E>(q: seq<Entry<E>>, p: seq<Option<E>>, x: Entry<E>, r: seq<Entry<E>>,
                                          p1: seq<Option<E>>, now: nat)
    requires Ordered(q, now) && Backward(q, p, now) && x.time <= now && InsertsAt(q, x, 0, r) && |p1| == |r|
    requires forall i :: 0 < i < |r| ==>
      p1[i] == if x.time < q[0].time && i - 1 < BlockEnd(q, 0) then Some(x.event) else p[i - 1]
    ensures Backward(r, p1, now) && Ordered(r, now)
  {
    OrderedPairs(q, now);
    forall i | 0 <= i < |r| && now < r[i].time ensures p1[i] == Predecessor(r, i) {
      PushedPredecessor(q, x, r, i);
    }
  }

  lemma {:induction false} RemovedOrdered<E>(q: seq<Entry<E>>, k: nat, r: seq<Entry<E>>, now: nat)
    requires Ordered(q, now) && RemovesAt(q, k, r)
    ensures Ordered(r, now)
  {
    OrderedPairs(q, now);
  }

  lemma {:induction false} RemovedBelow<E>(q: seq<Entry<E>>, k: nat, r: seq<Entry<E>>, i: nat)
    requires RemovesAt(q, k, r) && i < k && i < |r|
    ensures Predecessor(r, i) == Predecessor(q, i)
  {
    BlockStartIs(r, i, BlockStart(q, i));
  }

  // r and p1 are q and p without index k, p2 is p1 after the block behind a finished block was linked back
  lemma {:induction false} Removed<E>(q: seq<Entry<E>>, p: seq<Option<E>>, k: nat, r: seq<Entry<E>>,
                                      p1: seq<Option<E>>, p2: seq<Option<E>>, now: nat)
    requires Ordered(q, now) && Backward(q, p, now) && RemovesAt(q, k, r) && RemovesAt(p, k, p1) && |p2| == |p1|
    requires forall i :: 0 <= i < |p1| ==>
      p2[i] == if k <= i && q[k].time != q[k + 1].time && i < BlockEnd(r, k) then PredecessorLink(q, k) else p1[i]
    ensures Backward(r, p2, now) && Ordered(r, now)
  {
    RemovedOrdered(q, k, r, now);
    forall i | 0 <= i < |r| && now < r[i].time ensures p2[i] == Predecessor(r, i) {
      if i < k {
        RemovedBelow(q, k, r, i);
        assert p1[i] == p[i] && r[i] == q[i];
      } else {
        RemovedPredecessor(q, k, r, now, i);
        assert p1[i] == p[i + 1] && r[i] == q[i + 1];
      }
    }
  }

  // The entry in front of index k
  function PredecessorLink<E>(q: seq<Entry<E>>, k: nat): Option<E>
    requires k <= |q|
  {
    if k == 0 then None else Some(q[k - 1].event)
  }

  // An entry of the block that the removed entry belongs to or comes before
  lemma {:induction false} RemovedInside<E>(q: seq<Entry<E>>, k: nat, r: seq<Entry<E>>, i: nat)
    requires RemovesAt(q, k, r) && k <= i < |r| && BlockStart(q, i + 1) <= k
    ensures Predecessor(r, i) == Predecessor(q, i + 1) && q[k].time == q[k + 1].time
  {
    BlockStartIs(r, i, BlockStart(q, i + 1));
  }

  // An entry of the block right behind the removed entry
  lemma {:induction false} RemovedBehind<E>(q: seq<Entry<E>>, k: nat, r: seq<Entry<E>>, now: nat, i: nat)
    requires Ordered(q, now) && RemovesAt(q, k, r) && k <= i < |r| && now < r[i].time && BlockStart(q, i + 1) == k + 1
    ensures q[k].time != q[k + 1].time && i < BlockEnd(r, k) && Predecessor(r, i) == PredecessorLink(q, k)
  {
    OrderedPairs(q, now);
    BlockStartIs(r, i, k);
  }

  // An entry of a later block
  lemma {:induction false} RemovedBeyond<E>(q: seq<Entry<E>>, k: nat, r: seq<Entry<E>>, i: nat)
    requires RemovesAt(q, k, r) && k <= i < |r| && k + 1 < BlockStart(q, i + 1)
    ensures Predecessor(r, i) == Predecessor(q, i + 1) && BlockEnd(r, k) <= i
  {
    var b := BlockStart(q, i + 1);
    BlockStartIs(r, i, b - 1);
    assert r[b - 2] == q[b - 1] && r[b - 1] == q[b];
  }

  lemma {:induction false} RemovedPredecessor<E>(q: seq<Entry<E>>, k: nat, r: seq<Entry<E>>, now: nat, i: nat)
    requires Ordered(q, now) && RemovesAt(q, k, r) && k <= i < |r| && now < r[i].time
    ensures Predecessor(r, i) ==
      if q[k].time != q[k + 1].time && i < BlockEnd(r, k) then PredecessorLink(q, k)
      else Predecessor(q, i + 1)
  {
    var b := BlockStart(q, i + 1);
    if b <= k {
      RemovedInside(q, k, r, i);
    } else if b == k + 1 {
      RemovedBehind(q, k, r, now, i);
    } else {
      RemovedBeyond(q, k, r, i);
    }
  }

  lemma {:induction false} RemovedMembers<E>(q: seq<Entry<E>>, k: nat, r: seq<Entry<E>>)
    requires RemovesAt(q, k, r) && Distinct(q)
    ensures Distinct(r)
    ensures forall event :: Queued(r, event) <==> Queued(q, event) && event != q[k].event
  {
    DistinctPairs(q);
    forall event ensures Queued(r, event) <==> Queued(q, event) && event != q[k].event {
      if i :| 0 <= i < |q| && i != k && q[i].event == event {
        assert r[if i < k then i else i - 1].event == event;
      }
    }
  }

  lemma {:induction false} TimePasses<E>(q: seq<Entry<E>>, p: seq<Option<E>>, now: nat, later: nat)
    requires Ordered(q, now) && Backward(q, p, now) && now <= later
    ensures Ordered(q, later) && Backward(q, p, later)
  {
  }

  // Looking at one predecessor answers the question about the whole queue
  lemma {:induction false} FirstFutureIff<E>(q: seq<Entry<E>>, x: Entry<E>, k: nat, now: nat)
    requires Place(q, x, k, now)
    ensures (k == 0 || q[k - 1].time <= now) <==> !exists i :: 0 <= i < |q| && now < q[i].time <= x.time
  {
    OrderedPairs(q, now);
    if k > 0 && q[k - 1].time > now {
      assert q[k - 1].time <= x.time;
    }
  }

  lemma {:induction false} InsertedSummary<E>(q: seq<Entry<E>>, x: Entry<E>, k: nat, r: seq<Entry<E>>, now: nat)
    requires Place(q, x, k, now) && Distinct(q) && !Queued(q, x.event) && InsertsAt(q, x, k, r)
    ensures Ordered(r, now) && Distinct(r) && r == Inserted(q, x)
    ensures forall event :: Queued(r, event) <==> event == x.event || Queued(q, event)
    ensures (k == 0 || q[k - 1].time <= now) <==> !exists i :: 0 <= i < |q| && now < q[i].time <= x.time
  {
    InsertedOrdered(q, x, k, r, now);
    InsertedMembers(q, x, k, r);
    PositionIs(q, x.time, k);
    InsertedIs(q, x, k, r);
    FirstFutureIff(q, x, k, now);
  }

  // Every entry later than now is flagged as queued, and only queued events are flagged
  ghost predicate Flagged<E>(q: seq<Entry<E>>, flagged: set<E>, now: nat) {
    && (forall i :: 0 <= i < |q| && now < q[i].time ==> q[i].event in flagged)
    && (forall e :: e in flagged ==> Queued(q, e))
  }

  ghost predicate Cached<E>(q: seq<Entry<E>>, cache: Option<E>) {
    cache.Some? ==> Queued(q, cache.value)
  }

  lemma {:induction false} InsertedCached<E>(q: seq<Entry<E>>, x: Entry<E>, k: nat, r: seq<Entry<E>>, cache: Option<E>)
    requires InsertsAt(q, x, k, r) && Cached(q, cache)
    ensures Cached(r, InsertedCache(q, cache, x.event, k)) && Cached(r, cache)
  {
    assert r[k] == x;
    if cache.Some? {
      var i :| 0 <= i < |q| && q[i].event == cache.value;
      assert r[if i < k then i else i + 1].event == cache.value;
    }
  }

  lemma {:induction false} RemovedCached<E>(q: seq<Entry<E>>, k: nat, r: seq<Entry<E>>, cache: Option<E>)
    requires RemovesAt(q, k, r) && Cached(q, cache)
    ensures Cached(r, RemovedCache(q, cache, k))
  {
    assert k + 1 < |q| ==> r[k].event == q[k + 1].event;
    if cache.Some? && cache.value != q[k].event {
      var i :| 0 <= i < |q| && q[i].event == cache.value;
      assert r[if i < k then i else i - 1].event == cache.value;
    }
  }

  lemma {:induction false} InsertedFlags<E>(q: seq<Entry<E>>, x: Entry<E>, k: nat, r: seq<Entry<E>>,
                                            flagged: set<E>, cache: Option<E>, now: nat)
    requires InsertsAt(q, x, k, r) && Distinct(q) && !Queued(q, x.event) && Flagged(q, flagged, now) && Cached(q, cache)
    ensures Flagged(r, flagged + {x.event}, now) && Cached(r, InsertedCache(q, cache, x.event, k))
  {
    InsertedMembers(q, x, k, r);
    InsertedCached(q, x, k, r, cache);
  }

  lemma {:induction false} RemovedFlags<E>(q: seq<Entry<E>>, k: nat, r: seq<Entry<E>>, flagged: set<E>,
                                           cache: Option<E>, now: nat)
    requires RemovesAt(q, k, r) && Distinct(q) && Flagged(q, flagged, now) && Cached(q, cache)
    ensures Distinct(r) && Flagged(r, flagged - {q[k].event}, now)
    ensures Cached(r, RemovedCache(q, cache, k))
  {
    RemovedMembers(q, k, r);
    RemovedCached(q, k, r, cache);
    DistinctFrom(q, k);
  }

  lemma {:induction false} RemovedIs<E>(q: seq<Entry<E>>, k: nat, r: seq<Entry<E>>)
    requires RemovesAt(q, k, r) && Distinct(q)
    ensures r == q[..k] + q[k + 1..] && IndexOf(q, q[k].event) == k
  {
    DistinctFrom(q, k);
  }

  lemma {:induction false} PushedMembers<E>(q: seq<Entry<E>>, x: Entry<E>, r: seq<Entry<E>>, flagged: set<E>,
                                            cache: Option<E>, now: nat)
    requires InsertsAt(q, x, 0, r) && Distinct(q) && !Queued(q, x.event) && x.time <= now
    requires Flagged(q, flagged, now) && Cached(q, cache)
    ensures r == [x] + q && Distinct(r) && Flagged(r, flagged, now) && Cached(r, cache)
  {
    InsertedMembers(q, x, 0, r);
  }

  lemma {:induction false} DequeuedFlags<E>(q: seq<Entry<E>>, event: E, r: seq<Entry<E>>, flagged: set<E>,
                                            cache: Option<E>, now: nat)
    requires Distinct(q) && Flagged(q, flagged, now) && Cached(q, cache)
    requires var k := IndexOf(q, event); if k < |q| then RemovesAt(q, k, r) else r == q
    ensures Distinct(r) && Flagged(r, flagged - {event}, now) && !Queued(r, event)
    ensures var s := Dequeue(ClockState(q, cache, now), event); r == s.queue && Cached(r, s.cache)
  {
    var k := IndexOf(q, event);
    if k < |q| {
      RemovedFlags(q, k, r, flagged, cache, now);
      RemovedMembers(q, k, r);
      RemovedIs(q, k, r);
    }
  }

  lemma {:induction false} Popped<E>(q: seq<Entry<E>>, p: seq<Option<E>>, r: seq<Entry<E>>, p1: seq<Option<E>>,
                                     p2: seq<Option<E>>, now: nat)
    requires Ordered(q, now) && Backward(q, p, now) && q != [] && q[0].time <= now
    requires RemovesAt(q, 0, r) && RemovesAt(p, 0, p1) && |p2| == |p1|
    requires forall i :: 0 <= i < |p1| ==> p2[i] == if p1[0].Some? && i < BlockEnd(r, 0) then None else p1[i]
    ensures Backward(r, p2, now) && Ordered(r, now)
  {
    OrderedPairs(q, now);
    forall i | 0 <= i < |r| && now < r[i].time ensures p2[i] == Predecessor(r, i) {
      RemovedPredecessor(q, 0, r, now, i);
      if i < BlockEnd(r, 0) {
        BlockStartIs(q, 1, 1);
      }
    }
  }

  // The head tells whether any event is due
  lemma {:induction false} DueAtHead<E>(q: seq<Entry<E>>, now: nat)
    requires Ordered(q, now)
    ensures (q != [] && q[0].time <= now) <==> exists i :: 0 <= i < |q| && q[i].time <= now
  {
    OrderedPairs(q, now);
  }
}

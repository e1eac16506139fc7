/** What the assignments of a start do to the links of the queue, also for an event that is still in it. */
module ClockLinks {
  import opened Sequences
  import opened ClockQueue
  import Clock

  // The head of the queue and the next pointers of the events
  datatype Links<E> = Links(head: Option<E>, next: map<E, Option<E>>)

  function Next<E>(l: Links<E>, from: Option<E>): Option<E> {
    if from.Some? && from.value in l.next then l.next[from.value] else None
  }

  // The event behind n others, read from the head
  function Nth<E>(l: Links<E>, n: nat): Option<E> {
    if n == 0 then l.head else Next(l, Nth(l, n - 1))
  }

  ghost predicate LinkedAt<E>(l: Links<E>, q: seq<Entry<E>>, i: nat)
    requires i < |q|
  {
    q[i].event in l.next && l.next[q[i].event] == EventAt(q, i + 1)
  }

  // The links run through the entries of q
  ghost predicate Chain<E>(l: Links<E>, q: seq<Entry<E>>) {
    l.head == EventAt(q, 0) && forall i: nat :: i < |q| ==> LinkedAt(l, q, i)
  }

  function PushHead<E>(l: Links<E>, event: E): Links<E> {
    Links(Some(event), l.next[event := l.head])
  }

  function LinkBehind<E>(l: Links<E>, previous: E, event: E): Links<E>
    requires previous in l.next
  {
    var next := l.next[event := l.next[previous]];
    l.(next := next[previous := Some(event)])
  }

  // The entries with the time of one event overwritten
  function Retimed<E(==)>(q: seq<Entry<E>>, event: E, time: nat): (r: seq<Entry<E>>)
    ensures |r| == |q| && forall i :: 0 <= i < |q| ==> r[i].event == q[i].event
    ensures forall i :: 0 <= i < |q| ==> r[i].time == if q[i].event == event then time else q[i].time
  {
    if q == [] then []
    else [Entry(q[0].event, if q[0].event == event then time else q[0].time)] + Retimed(q[1..], event, time)
  }

  // The search from the tail stops at the last entry that is not later, after the event has got its new time
  function SearchEnd<E(==)>(q: seq<Entry<E>>, event: E, time: nat): (k: nat)
    ensures k <= |q|
  {
    Position(Retimed(q, event, time), time)
  }

  function Linked<E(==)>(l: Links<E>, q: seq<Entry<E>>, event: E, time: nat): Links<E>
    requires Chain(l, q)
  {
    var cleared := l.(next := l.next[event := None]);
    var k := SearchEnd(q, event, time);
    assert k > 0 ==> LinkedAt(l, q, k - 1);
    if k == 0 then PushHead(cleared, event) else LinkBehind(cleared, q[k - 1].event, event)
  }

  // The start of an event assigns to the links whatever they are
  function Started<E(==)>(l: Links<E>, q: seq<Entry<E>>, now: nat, marked: bool, event: E, time: nat): Links<E>
    requires Chain(l, q)
  {
    if marked then l else if now < time then Linked(l, q, event, time) else PushHead(l, event)
  }

  // The first n events, read from the head
  function Read<E>(l: Links<E>, n: nat): seq<E> {
    if n == 0 then [] else Read(l, n - 1) + (if Nth(l, n - 1).Some? then [Nth(l, n - 1).value] else [])
  }

  // The list ends, and holds what was queued and the event, each once
  ghost predicate HoldsAll<E>(l: Links<E>, q: seq<Entry<E>>, event: E) {
    exists n: nat :: Nth(l, n) == None && NoDup(Read(l, n)) && Includes(Read(l, n), q, event)
  }

  ghost predicate Includes<E>(r: seq<E>, q: seq<Entry<E>>, event: E) {
    && event in r && (forall i :: 0 <= i < |q| ==> q[i].event in r)
    && forall x :: x in r ==> x == event || Queued(q, x)
  }

  function EventsOf<E>(q: seq<Entry<E>>): (r: seq<E>)
    ensures |r| == |q| && forall i :: 0 <= i < |q| ==> r[i] == q[i].event
  {
    seq(|q|, i requires 0 <= i < |q| => q[i].event)
  }

  // ---- the linked list of the clock

  ghost function LinksOf(clock: Clock.Clock): Links<Clock.EventImpl>
    reads clock`queueHead, clock`events, clock.events`next
  {
    Links(Clock.Opt(clock.queueHead), map e | e in clock.events :: Clock.Opt(e.next))
  }

  // The list of a valid clock runs through its entries
  lemma {:induction false} LinksOfQueue(clock: Clock.Clock)
    requires clock.Valid()
    ensures Chain(LinksOf(clock), clock.queue)
  {
    var q, l := clock.queue, LinksOf(clock);
    forall i: nat | i < |q| ensures LinkedAt(l, q, i) {
      assert q[i].event.next == clock.Successor(i);
    }
  }

  // ---- an event that is not in the queue

  lemma {:induction false} ChainNth<E>(l: Links<E>, q: seq<Entry<E>>, n: nat)
    requires Chain(l, q)
    ensures Nth(l, n) == EventAt(q, n)
  {
    if n > 0 {
      ChainNth(l, q, n - 1);
      assert n - 1 < |q| ==> LinkedAt(l, q, n - 1);
    }
  }

  lemma {:induction false} ReadChain<E>(l: Links<E>, q: seq<Entry<E>>, n: nat)
    requires Chain(l, q) && n <= |q|
    ensures Read(l, n) == EventsOf(q)[..n]
  {
    if n > 0 {
      ReadChain(l, q, n - 1);
      ChainNth(l, q, n - 1);
    }
  }

  lemma {:induction false} ReadAt<E>(l: Links<E>, n: nat, x: E) returns (m: nat)
    requires x in Read(l, n)
    ensures Nth(l, m) == Some(x)
  {
    if Nth(l, n - 1) == Some(x) {
      m := n - 1;
    } else {
      m := ReadAt(l, n - 1, x);
    }
  }

  lemma {:induction false} PushedChain<E>(l: Links<E>, q: seq<Entry<E>>, x: Entry<E>, r: seq<Entry<E>>)
    requires Chain(l, q) && !Queued(q, x.event) && InsertsAt(q, x, 0, r)
    ensures Chain(PushHead(l, x.event), r)
  {
    var l' := PushHead(l, x.event);
    forall i: nat | i < |r| ensures LinkedAt(l', r, i) {
      assert i > 0 ==> r[i] == q[i - 1] && LinkedAt(l, q, i - 1);
    }
  }

  lemma {:induction false} LinkedChain<E>(l: Links<E>, q: seq<Entry<E>>, x: Entry<E>, k: nat, r: seq<Entry<E>>)
    requires Chain(l, q) && Distinct(q) && !Queued(q, x.event) && 0 < k && InsertsAt(q, x, k, r)
    ensures q[k - 1].event in l.next && Chain(LinkBehind(l, q[k - 1].event, x.event), r)
  {
    assert LinkedAt(l, q, k - 1);
    var l' := LinkBehind(l, q[k - 1].event, x.event);
    DistinctFrom(q, k - 1);
    forall i: nat | i < |r| ensures LinkedAt(l', r, i) {
      assert i < k ==> r[i] == q[i] && LinkedAt(l, q, i);
      assert k < i ==> r[i] == q[i - 1] && LinkedAt(l, q, i - 1);
    }
  }

  lemma {:induction false} RetimedFree<E>(q: seq<Entry<E>>, event: E, time: nat)
    requires !Queued(q, event)
    ensures Retimed(q, event, time) == q
  {
  }

  lemma {:induction false} InsertedAt<E>(q: seq<Entry<E>>, x: Entry<E>)
    ensures InsertsAt(q, x, Position(q, x.time), Inserted(q, x))
  {
  }

  lemma {:induction false} ClearedChain<E>(l: Links<E>, q: seq<Entry<E>>, event: E)
    requires Chain(l, q) && !Queued(q, event)
    ensures Chain(l.(next := l.next[event := None]), q)
  {
    var cleared := l.(next := l.next[event := None]);
    forall i: nat | i < |q| ensures LinkedAt(cleared, q, i) {
      assert LinkedAt(l, q, i);
    }
  }

  lemma {:induction false} LinkedFree<E>(l: Links<E>, q: seq<Entry<E>>, x: Entry<E>)
    requires Chain(l, q) && Distinct(q) && !Queued(q, x.event)
    ensures Chain(Linked(l, q, x.event, x.time), Inserted(q, x))
  {
    var cleared, r := l.(next := l.next[x.event := None]), Inserted(q, x);
    RetimedFree(q, x.event, x.time);
    ClearedChain(l, q, x.event);
    InsertedAt(q, x);
    if SearchEnd(q, x.event, x.time) == 0 {
      PushedChain(cleared, q, x, r);
    } else {
      LinkedChain(cleared, q, x, SearchEnd(q, x.event, x.time), r);
    }
  }

  // The links of a free or a marked event run through the queue of the abstract start
  lemma {:induction false} StartedChain<E>(l: Links<E>, s: ClockState<E>, marked: bool, event: E, time: nat)
    requires Chain(l, s.queue) && Distinct(s.queue) && (Queued(s.queue, event) ==> marked)
    ensures Chain(Started(l, s.queue, s.now, marked, event, time), StartAt(s, marked, event, time).queue)
  {
    if !marked {
      if time <= s.now {
        PushedChain(l, s.queue, Entry(event, time), [Entry(event, time)] + s.queue);
      } else {
        LinkedFree(l, s.queue, Entry(event, time));
      }
    }
  }

  // ---- an event that is in the queue

  // The indices read in a cycle that starts at k and goes on with 0
  function Around(k: nat, n: nat): (i: nat)
    ensures i <= k
  {
    if n == 0 then k else if Around(k, n - 1) == k then 0 else Around(k, n - 1) + 1
  }

  // An immediate start closes a cycle through the first k + 1 events
  lemma {:induction false} PushedCycle<E>(l: Links<E>, q: seq<Entry<E>>, k: nat, n: nat)
    requires Chain(l, q) && Distinct(q) && k < |q|
    ensures Nth(PushHead(l, q[k].event), n) == Some(q[Around(k, n)].event)
  {
    if n > 0 {
      PushedCycle(l, q, k, n - 1);
      DistinctFrom(q, k);
      assert LinkedAt(l, q, Around(k, n - 1));
    }
  }

  // The search finds the event itself at the latest
  lemma {:induction false} SearchFromItself<E>(q: seq<Entry<E>>, k: nat, time: nat)
    requires Distinct(q) && k < |q|
    ensures k < SearchEnd(q, q[k].event, time)
  {
  }

  // A later start that finds the event itself links it to itself: the queue stalls there, and so does the loop that
  // corrects the previous pointers behind the event
  lemma {:induction false} LinkedToItself<E>(l: Links<E>, q: seq<Entry<E>>, k: nat, n: nat)
    requires Chain(l, q) && Distinct(q) && k < |q|
    ensures var cleared := l.(next := l.next[q[k].event := None]);
      Nth(LinkBehind(cleared, q[k].event, q[k].event), n) == Some(q[if n < k then n else k].event)
  {
    if n > 0 {
      LinkedToItself(l, q, k, n - 1);
      DistinctFrom(q, k);
      assert n - 1 < k ==> LinkedAt(l, q, n - 1);
    }
  }

  lemma {:induction false} NextBeyond<E>(l: Links<E>, q: seq<Entry<E>>, k: nat, j: nat, i: nat)
    requires Chain(l, q) && Distinct(q) && k < j < |q| && i < |q| && i != j
    ensures q[j].event in l.next
    ensures var cleared := l.(next := l.next[q[k].event := None]);
      Next(LinkBehind(cleared, q[j].event, q[k].event), Some(q[i].event)) == EventAt(q, if i == k then j + 1 else i + 1)
  {
    DistinctFrom(q, k);
    DistinctFrom(q, j);
    assert LinkedAt(l, q, i) && LinkedAt(l, q, j);
  }

  // A later start that finds an event behind it takes the event's next pointer there and loses all in between
  lemma {:induction false} LinkedBeyond<E>(l: Links<E>, q: seq<Entry<E>>, k: nat, j: nat, n: nat)
    requires Chain(l, q) && Distinct(q) && k < j < |q|
    ensures q[j].event in l.next
    ensures var cleared := l.(next := l.next[q[k].event := None]);
      Nth(LinkBehind(cleared, q[j].event, q[k].event), n) == EventAt(q, if n <= k then n else n + (j - k))
  {
    assert LinkedAt(l, q, j);
    if n > 0 {
      LinkedBeyond(l, q, k, j, n - 1);
      var i := if n - 1 <= k then n - 1 else n - 1 + (j - k);
      if i < |q| {
        NextBeyond(l, q, k, j, i);
      }
    }
  }

  lemma {:induction false} LinkedAgain<E>(l: Links<E>, q: seq<Entry<E>>, k: nat, time: nat, n: nat)
    requires Chain(l, q) && Distinct(q) && k < |q|
    ensures var r, j := Nth(Linked(l, q, q[k].event, time), n), SearchEnd(q, q[k].event, time) - 1;
      k <= j && r ==
        if j == k then Some(q[if n < k then n else k].event) else EventAt(q, if n <= k then n else n + (j - k))
  {
    var j := SearchEnd(q, q[k].event, time) - 1;
    SearchFromItself(q, k, time);
    if j == k {
      LinkedToItself(l, q, k, n);
    } else {
      LinkedBeyond(l, q, k, j, n);
    }
  }

  // What is read from the queue after the start of an event that is at index k without being marked
  lemma {:induction false} UnmarkedStart<E>(l: Links<E>, q: seq<Entry<E>>, now: nat, k: nat, time: nat, n: nat)
    requires Chain(l, q) && Distinct(q) && k < |q|
    ensures var r, j := Nth(Started(l, q, now, false, q[k].event, time), n), SearchEnd(q, q[k].event, time) - 1;
      && k <= j
      && (time <= now ==> r == Some(q[Around(k, n)].event))
      && (now < time && j == k ==> r == Some(q[if n < k then n else k].event))
      && (now < time && k < j ==> r == EventAt(q, if n <= k then n else n + (j - k)))
  {
    SearchFromItself(q, k, time);
    if time <= now {
      PushedCycle(l, q, k, n);
    } else {
      LinkedAgain(l, q, k, time, n);
    }
  }

  // The events behind it are never read again, up to the one that the search for a later time finds
  lemma {:induction false} UnmarkedStartLoses<E>(l: Links<E>, q: seq<Entry<E>>, now: nat, k: nat, time: nat, i: nat,
                                                 n: nat)
    requires Chain(l, q) && Distinct(q) && k < i < |q|
    requires var j := SearchEnd(q, q[k].event, time) - 1; time <= now || j <= k || i <= j
    ensures Nth(Started(l, q, now, false, q[k].event, time), n) != Some(q[i].event)
  {
    UnmarkedStart(l, q, now, k, time, n);
    DistinctFrom(q, i);
  }

  lemma {:induction false} UnmarkedStartBreaks<E>(l: Links<E>, q: seq<Entry<E>>, now: nat, k: nat, time: nat)
    requires Chain(l, q) && Distinct(q) && k < |q|
    ensures !HoldsAll(Started(l, q, now, false, q[k].event, time), q, q[k].event)
  {
    var l' := Started(l, q, now, false, q[k].event, time);
    var j := SearchEnd(q, q[k].event, time) - 1;
    forall n: nat | Nth(l', n) == None && Includes(Read(l', n), q, q[k].event) ensures false {
      UnmarkedStart(l, q, now, k, time, n);
      assert now < time && k < j;
      assert q[k + 1].event in Read(l', n);
      var m := ReadAt(l', n, q[k + 1].event);
      UnmarkedStartLoses(l, q, now, k, time, k + 1, m);
    }
  }

  // A start keeps everything queued, and the event with it, exactly if the event is not in the queue or is marked
  lemma {:induction false} StartHoldsAllIff<E>(l: Links<E>, s: ClockState<E>, marked: bool, event: E, time: nat)
    requires Chain(l, s.queue) && Distinct(s.queue) && (marked ==> Queued(s.queue, event))
    ensures HoldsAll(Started(l, s.queue, s.now, marked, event, time), s.queue, event)
      <==> (Queued(s.queue, event) ==> marked)
  {
    if Queued(s.queue, event) ==> marked {
      StartedHoldsAll(l, s, marked, event, time);
    } else {
      var k :| 0 <= k < |s.queue| && s.queue[k].event == event;
      UnmarkedStartBreaks(l, s.queue, s.now, k, time);
    }
  }

  lemma {:induction false} StartedHoldsAll<E>(l: Links<E>, s: ClockState<E>, marked: bool, event: E, time: nat)
    requires Chain(l, s.queue) && Distinct(s.queue) && (Queued(s.queue, event) <==> marked)
    ensures HoldsAll(Started(l, s.queue, s.now, marked, event, time), s.queue, event)
  {
    var q := StartAt(s, marked, event, time).queue;
    StartedChain(l, s, marked, event, time);
    StartedIncludes(s, marked, event, time);
    ChainHoldsAll(Started(l, s.queue, s.now, marked, event, time), q, s.queue, event);
  }

  lemma {:induction false} ChainHoldsAll<E>(l: Links<E>, r: seq<Entry<E>>, q: seq<Entry<E>>, event: E)
    requires Chain(l, r) && Distinct(r) && Includes(EventsOf(r), q, event)
    ensures HoldsAll(l, q, event)
  {
    ChainNth(l, r, |r|);
    ReadChain(l, r, |r|);
    assert Read(l, |r|) == EventsOf(r);
    DistinctPairs(r);
  }

  lemma {:induction false} StartedIncludes<E>(s: ClockState<E>, marked: bool, event: E, time: nat)
    requires Distinct(s.queue) && (Queued(s.queue, event) <==> marked)
    ensures var q := StartAt(s, marked, event, time).queue; Distinct(q) && Includes(EventsOf(q), s.queue, event)
  {
    var q, k := s.queue, if s.now < time then Position(s.queue, time) else 0;
    if marked {
      QueuedIncludes(q, event);
    } else {
      var r := Splice(q, Entry(event, time), k);
      assert StartAt(s, marked, event, time).queue == r;
      InsertedMembers(q, Entry(event, time), k, r);
      IncludesInserted(q, Entry(event, time), k, r);
    }
  }

  lemma {:induction false} QueuedIncludes<E>(q: seq<Entry<E>>, event: E)
    requires Queued(q, event)
    ensures Includes(EventsOf(q), q, event)
  {
    var events := EventsOf(q);
    forall i | 0 <= i < |q| ensures q[i].event in events {
      assert events[i] == q[i].event;
    }
  }

  lemma {:induction false} IncludesInserted<E>(q: seq<Entry<E>>, x: Entry<E>, k: nat, r: seq<Entry<E>>)
    requires InsertsAt(q, x, k, r)
    ensures Includes(EventsOf(r), q, x.event)
  {
    var events := EventsOf(r);
    assert events[k] == x.event;
    forall i | 0 <= i < |q| ensures q[i].event in events {
      assert events[if i < k then i else i + 1] == q[i].event;
    }
    forall e | e in events ensures e == x.event || Queued(q, e) {
      var i :| 0 <= i < |events| && events[i] == e;
      assert i != k ==> q[if i < k then i else i - 1].event == e;
    }
  }

  // Two immediate starts of one event behind another: the first event is lost and the second one read again and again
  lemma {:induction false} StartedTwice(n: nat)
    ensures var l := PushHead(PushHead(Links<int>.Links(None, map[]), 1), 2);
      && Chain(l, [Entry(2, 0), Entry(1, 0)])
      && Nth(Started(l, [Entry(2, 0), Entry(1, 0)], 0, false, 2, 0), n) == Some(2)
  {
    var l, q := PushHead(PushHead(Links<int>.Links(None, map[]), 1), 2), [Entry(2, 0), Entry(1, 0)];
    assert LinkedAt(l, q, 0) && LinkedAt(l, q, 1);
    if n > 0 {
      StartedTwice(n - 1);
    }
  }
}

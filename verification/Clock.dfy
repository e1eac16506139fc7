/**
 * The event queue of the clock as the list that is linked through the events themselves. The list is searched
 * backwards; the previous pointers of later events lead to the first event of the block with the next earlier time or
 * to none.
 * A reading of the time is a parameter of the methods; now is the latest one, and readings never decrease.
 */
module Clock {
  import opened Sequences
  import opened ClockQueue

  class EventImpl {
    var configured: bool
    var periodical: bool
    var queued: bool
    var period: nat
    var nextActivation: nat
    var next: EventImpl?
    var previous: EventImpl?

    constructor ()
      ensures !queued
    {
      configured := false;
      periodical := false;
      queued := false;
      period := 0;
      nextActivation := 0;
      next := null;
      previous := null;
    }
  }

  function Opt(e: EventImpl?): Option<EventImpl> {
    if e == null then None else Some(e)
  }

  class Clock {
    var queueHead: EventImpl?
    var queueTail: EventImpl?
    var nonePendingHead: EventImpl?
    var now: nat
    ghost var queue: seq<Entry<EventImpl>>
    ghost var back: seq<Option<EventImpl>>
    ghost var flagged: set<EventImpl>
    ghost var events: set<EventImpl>

    ghost function State(): ClockState<EventImpl>
      reads `queue, `nonePendingHead, `now
    {
      ClockState(queue, Opt(nonePendingHead), now)
    }

    ghost function Successor(i: nat): EventImpl?
      requires i < |queue|
      reads `queue
    {
      if i + 1 < |queue| then queue[i + 1].event else null
    }

    ghost predicate Members()
      reads `queue, `events, events`nextActivation
    {
      forall i :: 0 <= i < |queue| ==> queue[i].event in events && queue[i].event.nextActivation == queue[i].time
    }

    ghost predicate Linked()
      reads `queue, `events, `queueHead, `queueTail, events`next, events`nextActivation
    {
      && Members()
      && (forall i {:trigger queue[i].event.next} :: 0 <= i < |queue| ==> queue[i].event.next == Successor(i))
      && queueHead == (if queue == [] then null else queue[0].event)
      && queueTail == (if queue == [] then null else queue[|queue| - 1].event)
    }

    ghost predicate BackLinked()
      requires Members()
      reads `queue, `back, `events, events`previous, events`nextActivation
    {
      && |back| == |queue|
      && (forall i {:trigger queue[i].event.previous} :: 0 <= i < |queue| ==> Opt(queue[i].event.previous) == back[i])
    }

    ghost predicate Flags()
      reads `flagged, `events, events`queued
    {
      forall e :: e in events ==> (e.queued <==> e in flagged)
    }

    ghost predicate Valid()
      reads `queueHead, `queueTail, `nonePendingHead, `now, `queue, `back, `flagged, `events
      reads events`next, events`previous, events`queued, events`nextActivation
    {
      && Linked()
      && BackLinked()
      && Distinct(queue)
      && Ordered(queue, now)
      && Backward(queue, back, now)
      && Flags()
      && Flagged(queue, flagged, now)
      && Cached(queue, Opt(nonePendingHead))
    }

    lemma {:induction false} Marked(event: EventImpl)
      requires Valid() && event in events
      ensures event.queued ==> Queued(queue, event)
    {
    }

    method FindPredecessor(time: nat) returns (previous: EventImpl?)
      requires Linked() && BackLinked() && Backward(queue, back, now) && now < time
      ensures var k := Position(queue, time);
        previous == if k == 0 then null else queue[k - 1].event
    {
      previous := queueTail;
      ghost var k: nat := |queue|;
      while previous != null && previous.nextActivation > time
        invariant k <= |queue|
        invariant previous == if k == 0 then null else queue[k - 1].event
        invariant forall i :: k <= i < |queue| ==> time < queue[i].time
        decreases k
      {
        assert Opt(queue[k - 1].event.previous) == back[k - 1] == Predecessor(queue, k - 1);
        k := BlockStart(queue, k - 1);
        previous := previous.previous;
      }
      PositionIs(queue, time, k);
    }

    // The loop over the block that starts at first, which gives all its events the same predecessor
    method RelinkBlock(first: EventImpl, newPrevious: EventImpl?, ghost s: nat)
      requires Linked() && BackLinked() && Distinct(queue) && s < |queue| && queue[s].event == first
      modifies events`previous, `back
      ensures BackLinked()
      ensures forall i :: 0 <= i < |queue| ==>
        back[i] == if s <= i < BlockEnd(queue, s) then Opt(newPrevious) else old(back)[i]
    {
      var time := first.nextActivation;
      var event: EventImpl? := first;
      ghost var e := s;
      while event != null && event.nextActivation == time
        invariant s <= e <= BlockEnd(queue, s)
        invariant event == if e < |queue| then queue[e].event else null
        invariant BackLinked()
        invariant forall i :: 0 <= i < |queue| ==> back[i] == if s <= i < e then Opt(newPrevious) else old(back)[i]
        decreases |queue| - e
      {
        DistinctFrom(queue, e);
        event.previous := newPrevious;
        back := back[e := Opt(newPrevious)];
        assert queue[e].event.next == Successor(e);
        event := event.next;
        e := e + 1;
      }
    }

    // The loop over the head block, which is recognised by its null predecessor
    method RelinkFront(event: EventImpl)
      requires Linked() && BackLinked() && Distinct(queue) && queue != []
      requires forall i :: 0 <= i < BlockEnd(queue, 0) ==> back[i] == None
      requires BlockEnd(queue, 0) < |queue| ==> back[BlockEnd(queue, 0)].Some?
      modifies events`previous, `back
      ensures BackLinked()
      ensures forall i :: 0 <= i < |queue| ==> back[i] == if i < BlockEnd(queue, 0) then Some(event) else old(back)[i]
    {
      var hasSameTime := queueHead;
      ghost var e := 0;
      while hasSameTime != null && hasSameTime.previous == null
        invariant 0 <= e <= BlockEnd(queue, 0)
        invariant hasSameTime == if e < |queue| then queue[e].event else null
        invariant BackLinked()
        invariant forall i :: 0 <= i < |queue| ==> back[i] == if i < e then Some(event) else old(back)[i]
        decreases |queue| - e
      {
        assert Opt(queue[e].event.previous) == back[e];
        DistinctFrom(queue, e);
        hasSameTime.previous := event;
        back := back[e := Some(event)];
        assert queue[e].event.next == Successor(e);
        hasSameTime := hasSameTime.next;
        e := e + 1;
      }
    }

    method LinkAtHead(event: EventImpl)
      requires Linked() && BackLinked() && event in events && forall i :: 0 <= i < |queue| ==> queue[i].event != event
      modifies `queueHead, `queueTail, `queue, `back, event`next, event`previous
      ensures Linked() && BackLinked()
      ensures InsertsAt(old(queue), Entry(event, event.nextActivation), 0, queue)
      ensures InsertsAt(old(back), None, 0, back)
    {
      if queueHead == null {
        queueTail := event;
      }
      event.next := queueHead;
      event.previous := null;
      queueHead := event;
      queue := Splice(queue, Entry(event, event.nextActivation), 0);
      back := Splice(back, None, 0);
    }

    method LinkAfter(previousEvent: EventImpl, event: EventImpl, ghost k: nat)
      requires Linked() && BackLinked() && event in events
      requires forall i :: 0 <= i < |queue| ==> queue[i].event != event
      requires 0 < k <= |queue| && forall i :: 0 <= i < |queue| ==> (queue[i].event == previousEvent <==> i == k - 1)
      modifies `queueTail, `queue, `back, event`next, previousEvent`next
      ensures Linked() && BackLinked()
      ensures InsertsAt(old(queue), Entry(event, event.nextActivation), k, queue)
      ensures InsertsAt(old(back), Opt(event.previous), k, back)
      ensures event.next == Successor(k)
    {
      assert queue[k - 1].event == previousEvent;
      assert queue[k - 1].event.next == Successor(k - 1);
      event.next := previousEvent.next;
      previousEvent.next := event;
      if event.next == null {
        queueTail := event;
      }
      queue := Splice(queue, Entry(event, event.nextActivation), k);
      back := Splice(back, Opt(event.previous), k);
    }

    method EnqueueFront(event: EventImpl)
      requires Linked() && BackLinked() && Distinct(queue) && queue != []
      requires event in events && (forall i :: 0 <= i < |queue| ==> queue[i].event != event)
      requires forall i :: 0 <= i < BlockEnd(queue, 0) ==> back[i] == None
      requires BlockEnd(queue, 0) < |queue| ==> back[BlockEnd(queue, 0)].Some?
      modifies `queueHead, `queueTail, `nonePendingHead, `queue, `back, events`next, events`previous
      ensures Linked() && BackLinked()
      ensures InsertsAt(old(queue), Entry(event, event.nextActivation), 0, queue)
      ensures |back| == |queue| && back[0] == None
      ensures forall i :: 0 < i < |queue| ==>
        back[i] == if i - 1 < BlockEnd(old(queue), 0) then Some(event) else old(back)[i - 1]
      ensures nonePendingHead == if old(nonePendingHead) == null then null else event
    {
      RelinkFront(event);
      LinkAtHead(event);
      if nonePendingHead != null {
        nonePendingHead := queueHead;
      }
    }

    method CorrectSearchStart(event: EventImpl)
      modifies `nonePendingHead
      ensures nonePendingHead == if event.next == old(nonePendingHead) then event else old(nonePendingHead)
    {
      if event.next == nonePendingHead {
        nonePendingHead := event;
      }
    }

    method EnqueueAfter(previousEvent: EventImpl, event: EventImpl, ghost k: nat)
      returns (ghost p1: seq<Option<EventImpl>>)
      requires Linked() && BackLinked() && event in events && !Queued(queue, event) && Distinct(queue)
      requires 0 < k <= |queue| && queue[k - 1].event == previousEvent
      modifies `queueTail, `nonePendingHead, `queue, `back, events`next, events`previous
      ensures Linked() && BackLinked()
      ensures InsertsAt(old(queue), Entry(event, event.nextActivation), k, queue)
      ensures InsertsAt(old(back), old(Opt(event.previous)), k, p1) && |back| == |p1|
      ensures forall i :: 0 <= i < |p1| ==>
        back[i] == if k < i && i < BlockEnd(queue, k + 1) then Some(event) else p1[i]
      ensures Opt(nonePendingHead) ==
        if old(Opt(nonePendingHead)) == old(EventAt(queue, k)) then Some(event) else old(Opt(nonePendingHead))
    {
      ghost var q := queue;
      DistinctFrom(queue, k - 1);
      LinkAfter(previousEvent, event, k);
      p1 := back;
      InsertedMembers(q, Entry(event, event.nextActivation), k, queue);
      CorrectSearchStart(event);
      if event.next != null {
        RelinkBlock(event.next, event, k + 1);
      }
    }

    method EnqueueEmpty(event: EventImpl)
      requires Linked() && BackLinked() && queue == [] && event in events
      modifies `queueHead, `queueTail, `queue, `back, event`next, event`previous
      ensures Linked() && BackLinked()
      ensures queue == [Entry(event, event.nextActivation)] && back == [None]
    {
      event.next := null;
      event.previous := null;
      queueHead := event;
      queueTail := event;
      queue := [Entry(event, event.nextActivation)];
      back := [None];
    }

    method InsertFirst(event: EventImpl)
      requires Linked() && BackLinked() && Distinct(queue) && queue != [] && Backward(queue, back, now)
      requires event in events && !Queued(queue, event) && Place(queue, Entry(event, event.nextActivation), 0, now)
      modifies `queueHead, `queueTail, `nonePendingHead, `queue, `back, events`next, events`previous
      ensures Linked() && BackLinked() && Backward(queue, back, now)
      ensures InsertsAt(old(queue), Entry(event, event.nextActivation), 0, queue)
      ensures Opt(nonePendingHead) == InsertedCache(old(queue), old(Opt(nonePendingHead)), event, 0)
    {
      ghost var q, p := queue, back;
      FirstBlock(queue, back, now);
      EnqueueFront(event);
      InsertedBackward(q, p, Entry(event, event.nextActivation), 0, queue, back, now);
    }

    method InsertBehind(previousEvent: EventImpl, event: EventImpl, currentTime: nat, ghost k: nat)
      returns (firstFutureEvent: bool)
      requires Linked() && BackLinked() && Distinct(queue) && Backward(queue, back, now) && currentTime == now
      requires event in events && !Queued(queue, event) && Place(queue, Entry(event, event.nextActivation), k, now)
      requires 0 < k && queue[k - 1].event == previousEvent
      modifies `queueTail, `nonePendingHead, `queue, `back, events`next, events`previous
      ensures Linked() && BackLinked() && Backward(queue, back, now)
      ensures InsertsAt(old(queue), Entry(event, event.nextActivation), k, queue)
      ensures Opt(nonePendingHead) == InsertedCache(old(queue), old(Opt(nonePendingHead)), event, k)
      ensures firstFutureEvent <==> old(queue)[k - 1].time <= now
    {
      firstFutureEvent := false;
      ghost var q, p := queue, back;
      if previousEvent.nextActivation == event.nextActivation {
        event.previous := previousEvent.previous;
      } else {
        event.previous := previousEvent;
        if previousEvent.nextActivation <= currentTime {
          firstFutureEvent := true;
        }
      }
      ghost var pe := Opt(event.previous);
      ghost var p1 := EnqueueAfter(previousEvent, event, k);
      InsertedMiddle(q, p, Entry(event, event.nextActivation), k, pe, queue, p1, back, now);
    }

    method Insert(currentTime: nat, event: EventImpl, ghost x: Entry<EventImpl>, ghost k: nat)
      returns (firstFutureEvent: bool)
      requires Linked() && BackLinked() && Distinct(queue) && Backward(queue, back, now)
      requires currentTime == now && event in events && !Queued(queue, event)
      requires x == Entry(event, event.nextActivation) && Place(queue, x, k, now)
      modifies `queueHead, `queueTail, `nonePendingHead, `queue, `back, events`next, events`previous
      ensures Linked() && BackLinked() && Backward(queue, back, now)
      ensures InsertsAt(old(queue), x, k, queue)
      ensures Opt(nonePendingHead) == InsertedCache(old(queue), old(Opt(nonePendingHead)), event, k)
      ensures firstFutureEvent <==> k == 0 || old(queue)[k - 1].time <= now
    {
      PositionIs(queue, x.time, k);
      if queueHead == null {
        firstFutureEvent := true;
        EnqueueEmpty(event);
      } else {
        var previousEvent := FindPredecessor(event.nextActivation);
        if previousEvent == null {
          firstFutureEvent := true;
          InsertFirst(event);
        } else {
          firstFutureEvent := InsertBehind(previousEvent, event, currentTime, k);
        }
      }
    }

    method MarkQueued(event: EventImpl)
      requires Linked() && Flags() && event in events && !Queued(queue, event)
      modifies `flagged, event`queued, event`next
      ensures Linked() && Flags() && flagged == old(flagged) + {event}
    {
      event.queued := true;
      flagged := flagged + {event};
      event.next := null;
    }

    method MarkedInsert(currentTime: nat, event: EventImpl, ghost x: Entry<EventImpl>, ghost k: nat)
      returns (firstFutureEvent: bool)
      requires Valid() && currentTime == now && event in events && !Queued(queue, event)
      requires x == Entry(event, event.nextActivation) && Place(queue, x, k, now)
      modifies `queueHead, `queueTail, `nonePendingHead, `queue, `back, `flagged
      modifies events`next, events`previous, event`queued
      ensures Linked() && BackLinked() && Backward(queue, back, now) && Flags() && flagged == old(flagged) + {event}
      ensures InsertsAt(old(queue), x, k, queue)
      ensures Opt(nonePendingHead) == InsertedCache(old(queue), old(Opt(nonePendingHead)), event, k)
      ensures firstFutureEvent <==> k == 0 || old(queue)[k - 1].time <= now
    {
      MarkQueued(event);
      firstFutureEvent := Insert(currentTime, event, x, k);
    }

    method Enqueue(currentTime: nat, event: EventImpl) returns (firstFutureEvent: bool)
      requires Valid() && currentTime == now
      requires event in events && !Queued(queue, event) && now < event.nextActivation
      modifies `queueHead, `queueTail, `nonePendingHead, `queue, `back, `flagged
      modifies events`next, events`previous, event`queued
      ensures Valid()
      ensures State() == ClockQueue.Enqueue(old(State()), Entry(event, event.nextActivation)) && event.queued
      ensures firstFutureEvent <==>
        !exists i :: 0 <= i < |old(queue)| && now < old(queue)[i].time <= event.nextActivation
    {
      ghost var q, x, k := queue, Entry(event, event.nextActivation), Position(queue, event.nextActivation);
      firstFutureEvent := MarkedInsert(currentTime, event, x, k);
      InsertedSummary(q, x, k, queue, now);
      InsertedFlags(q, x, k, queue, old(flagged), old(Opt(nonePendingHead)), now);
    }

    method PushFront(event: EventImpl)
      requires Linked() && BackLinked() && Distinct(queue) && Ordered(queue, now) && Backward(queue, back, now)
      requires event in events && !Queued(queue, event) && event.nextActivation <= now
      modifies `queueHead, `queueTail, `queue, `back, events`next, events`previous
      ensures Linked() && BackLinked() && Ordered(queue, now) && Backward(queue, back, now)
      ensures InsertsAt(old(queue), Entry(event, event.nextActivation), 0, queue)
    {
      ghost var q, p := queue, back;
      if queueHead != null && event.nextActivation < queueHead.nextActivation {
        RelinkBlock(queueHead, event, 0);
      }
      LinkAtHead(event);
      PushedFront(q, p, Entry(event, event.nextActivation), queue, back, now);
    }

    method EnqueueHead(event: EventImpl)
      requires Valid() && event in events && !Queued(queue, event) && event.nextActivation <= now
      modifies `queueHead, `queueTail, `queue, `back, events`next, events`previous
      ensures Valid()
      ensures State() == ClockQueue.PushHead(old(State()), Entry(event, event.nextActivation))
    {
      ghost var q := queue;
      PushFront(event);
      PushedMembers(q, Entry(event, event.nextActivation), queue, flagged, Opt(nonePendingHead), now);
    }

    // Walk from the head to event, together with its direct predecessor in the list
    method Find(event: EventImpl) returns (current: EventImpl?, previous: EventImpl?)
      requires Linked() && Distinct(queue)
      ensures var k := IndexOf(queue, event);
        current == (if k < |queue| then event else null) && (k < |queue| ==> Opt(previous) == PredecessorLink(queue, k))
    {
      current := queueHead;
      previous := null;
      ghost var k := 0;
      while current != null && event != current
        invariant 0 <= k <= |queue|
        invariant current == if k < |queue| then queue[k].event else null
        invariant Opt(previous) == PredecessorLink(queue, k)
        invariant forall i :: 0 <= i < k ==> queue[i].event != event
        decreases |queue| - k
      {
        previous := current;
        assert queue[k].event.next == Successor(k);
        current := current.next;
        k := k + 1;
      }
    }

    method UnlinkTail(current: EventImpl, previous: EventImpl?, ghost k: nat)
      requires Linked() && BackLinked() && Distinct(queue)
      requires k + 1 == |queue| && queue[k].event == current && Opt(previous) == PredecessorLink(queue, k)
      modifies `queueHead, `queueTail, `queue, `back, events`next
      ensures Linked() && BackLinked()
      ensures RemovesAt(old(queue), k, queue) && RemovesAt(old(back), k, back)
    {
      DistinctFrom(queue, k);
      if current == queueHead {
        queueHead := null;
        queueTail := null;
      } else {
        DistinctFrom(queue, k - 1);
        queueTail := previous;
        queueTail.next := null;
      }
      queue := Cut(queue, k);
      back := Cut(back, k);
    }

    method UnlinkInner(current: EventImpl, previous: EventImpl?, ghost k: nat)
      requires Linked() && BackLinked() && Distinct(queue)
      requires k + 1 < |queue| && queue[k].event == current && Opt(previous) == PredecessorLink(queue, k)
      modifies `queueHead, `queue, `back, events`next
      ensures Linked() && BackLinked()
      ensures RemovesAt(old(queue), k, queue) && RemovesAt(old(back), k, back)
      ensures current.next == queue[k].event
    {
      DistinctFrom(queue, k);
      assert queue[k].event.next == Successor(k);
      if current == queueHead {
        queueHead := current.next;
      } else {
        DistinctFrom(queue, k - 1);
        previous.next := current.next;
      }
      queue := Cut(queue, k);
      back := Cut(back, k);
    }

    method Unlink(current: EventImpl, previous: EventImpl?, ghost k: nat)
      requires Linked() && BackLinked() && Distinct(queue) && Ordered(queue, now) && Backward(queue, back, now)
      requires k < |queue| && queue[k].event == current && Opt(previous) == PredecessorLink(queue, k)
      modifies `queueHead, `queueTail, `queue, `back, events`next, events`previous
      ensures Linked() && BackLinked() && Ordered(queue, now) && Backward(queue, back, now)
      ensures RemovesAt(old(queue), k, queue)
    {
      ghost var q, p, p1 := queue, back, back;
      if current == queueTail {
        DistinctFrom(queue, k);
        UnlinkTail(current, previous, k);
        p1 := back;
      } else {
        UnlinkInner(current, previous, k);
        p1 := back;
        if current.nextActivation != current.next.nextActivation {
          RemovedMembers(q, k, queue);
          RelinkBlock(current.next, previous, k);
        }
      }
      Removed(q, p, k, queue, p1, back, now);
    }

    method ClearLinks(event: EventImpl)
      requires Linked() && BackLinked() && Flags() && event in events && !Queued(queue, event)
      modifies `flagged, event`queued, event`next, event`previous
      ensures Linked() && BackLinked() && Flags() && flagged == old(flagged) - {event}
    {
      event.queued := false;
      event.next := null;
      event.previous := null;
      flagged := flagged - {event};
    }

    method RemoveFound(event: EventImpl)
      requires Linked() && BackLinked() && Distinct(queue) && Ordered(queue, now) && Backward(queue, back, now)
      modifies `queueHead, `queueTail, `queue, `back, events`next, events`previous
      ensures Linked() && BackLinked() && Ordered(queue, now) && Backward(queue, back, now)
      ensures var k := IndexOf(old(queue), event);
        if k < |old(queue)| then RemovesAt(old(queue), k, queue) else queue == old(queue)
    {
      if queueHead != null {
        var current, previous := Find(event);
        if current != null {
          Unlink(current, previous, IndexOf(queue, event));
        }
      }
    }

    method AdvanceSearchStart(event: EventImpl)
      requires Linked() && Distinct(queue) && Cached(queue, Opt(nonePendingHead))
      modifies `nonePendingHead
      ensures var k := IndexOf(queue, event);
        Opt(nonePendingHead) ==
          if k < |queue| then RemovedCache(queue, old(Opt(nonePendingHead)), k) else old(Opt(nonePendingHead))
    {
      if event == nonePendingHead {
        ghost var k := IndexOf(queue, event);
        assert queue[k].event.next == Successor(k);
        nonePendingHead := event.next;
      }
    }

    method RemoveEntry(event: EventImpl)
      requires Valid()
      modifies `queueHead, `queueTail, `nonePendingHead, `queue, `back, events`next, events`previous
      ensures Linked() && BackLinked() && Ordered(queue, now) && Backward(queue, back, now)
      ensures Distinct(queue) && Flagged(queue, flagged - {event}, now) && !Queued(queue, event)
      ensures State() == ClockQueue.Dequeue(old(State()), event)
      ensures Cached(queue, Opt(nonePendingHead))
    {
      ghost var q, cache := queue, Opt(nonePendingHead);
      AdvanceSearchStart(event);
      RemoveFound(event);
      DequeuedFlags(q, event, queue, flagged, cache, now);
    }

    method Dequeue(event: EventImpl)
      requires Valid() && event in events
      modifies `queueHead, `queueTail, `nonePendingHead, `queue, `back, `flagged
      modifies events`next, events`previous, event`queued
      ensures Valid()
      ensures State() == ClockQueue.Dequeue(old(State()), event)
      ensures !Queued(queue, event) && !event.queued
    {
      RemoveEntry(event);
      ClearLinks(event);
    }

    method TakeHead(result: EventImpl)
      requires Linked() && BackLinked() && Distinct(queue) && queue != [] && queue[0].event == result
      modifies `queueHead, `queueTail, `queue, `back
      ensures Linked() && BackLinked()
      ensures RemovesAt(old(queue), 0, queue) && RemovesAt(old(back), 0, back)
    {
      assert queue[0].event.next == Successor(0);
      queueHead := result.next;
      if queueHead == null {
        queueTail := null;
      }
      queue := Cut(queue, 0);
      back := Cut(back, 0);
    }

    method PopHead(result: EventImpl)
      requires Linked() && BackLinked() && Distinct(queue) && Ordered(queue, now) && Backward(queue, back, now)
      requires queue != [] && queue[0].event == result && queue[0].time <= now
      modifies `queueHead, `queueTail, `queue, `back, events`previous
      ensures Linked() && BackLinked() && Ordered(queue, now) && Backward(queue, back, now)
      ensures RemovesAt(old(queue), 0, queue)
    {
      ghost var q, p := queue, back;
      TakeHead(result);
      ghost var p1 := back;
      RemovedMembers(q, 0, queue);
      if queueHead != null {
        assert Opt(queue[0].event.previous) == back[0];
        if queueHead.previous != null {
          RelinkBlock(queueHead, null, 0);
        }
      }
      Popped(q, p, queue, p1, back, now);
    }

    method PopEntry(result: EventImpl)
      requires Valid() && queue != [] && queue[0].event == result && queue[0].time <= now
      modifies `queueHead, `queueTail, `nonePendingHead, `queue, `back, events`previous
      ensures Linked() && BackLinked() && Ordered(queue, now) && Backward(queue, back, now)
      ensures Distinct(queue) && Flagged(queue, flagged - {result}, now) && !Queued(queue, result)
      ensures State() == ClockQueue.Dequeue(old(State()), result)
      ensures Cached(queue, Opt(nonePendingHead))
    {
      ghost var q, cache := queue, Opt(nonePendingHead);
      AdvanceSearchStart(result);
      PopHead(result);
      DequeuedFlags(q, result, queue, flagged, cache, now);
    }

    method UnmarkPopped(event: EventImpl)
      requires Linked() && Flags() && event in events && !Queued(queue, event)
      modifies `flagged, event`queued, event`next
      ensures Linked() && Flags() && flagged == old(flagged) - {event} && !event.queued
    {
      event.queued := false;
      event.next := null;
      flagged := flagged - {event};
    }

    method ReadFirstPending(currentTime: nat) returns (result: EventImpl?)
      requires Valid() && currentTime == now
      modifies `queueHead, `queueTail, `nonePendingHead, `queue, `back, `flagged, events`next, events`previous
      modifies events`queued
      ensures Valid()
      ensures (Opt(result), State()) == ClockQueue.ReadFirstPending(old(State()))
      ensures result != null ==> result in events && !Queued(queue, result) && !result.queued
      ensures forall e :: e in events && e != result ==> e.queued == old(e.queued)
    {
      result := null;
      if queueHead != null && queueHead.nextActivation <= currentTime {
        result := queueHead;
        PopEntry(result);
        UnmarkPopped(result);
      }
    }

    // The search loop, from the event at index s on
    method SearchFuture(start: EventImpl?, currentTime: nat, ghost s: nat)
      returns (searchEvent: EventImpl?, nextStartTime: nat)
      requires Linked() && currentTime == now && s <= |queue| && start == if s < |queue| then queue[s].event else null
      ensures var k := FirstFuture(queue, s, now);
        Opt(searchEvent) == EventAt(queue, k) && nextStartTime == if k < |queue| then queue[k].time else 0
    {
      nextStartTime := 0;
      ghost var i := s;
      searchEvent := start;
      while searchEvent != null && nextStartTime == 0
        invariant s <= i <= |queue|
        invariant searchEvent == if i < |queue| then queue[i].event else null
        invariant FirstFuture(queue, i, now) == FirstFuture(queue, s, now)
        invariant nextStartTime != 0 ==> i < |queue| && now < queue[i].time == nextStartTime
        decreases |queue| - i, nextStartTime == 0
      {
        if searchEvent.nextActivation <= currentTime {
          assert queue[i].event.next == Successor(i);
          searchEvent := searchEvent.next;
          i := i + 1;
        } else {
          nextStartTime := searchEvent.nextActivation;
        }
      }
    }

    method GetNextStartTime(currentTime: nat) returns (nextStartTime: nat)
      requires Valid() && currentTime == now
      modifies `nonePendingHead
      ensures Valid()
      ensures (nextStartTime, State()) == ClockQueue.NextStartTime(old(State()))
    {
      var searchEvent := nonePendingHead;
      if searchEvent == null {
        searchEvent := queueHead;
      }
      searchEvent, nextStartTime := SearchFuture(searchEvent, currentTime, SearchStart(State()));
      nonePendingHead := searchEvent;
    }

    method IsPending(currentTime: nat) returns (pends: bool)
      requires Valid() && currentTime == now
      ensures pends <==> exists i :: 0 <= i < |queue| && queue[i].time <= now
    {
      pends := queueHead != null;
      if pends {
        pends := queueHead.nextActivation <= currentTime;
      }
      DueAtHead(queue, now);
    }

    method ReadClock(currentTime: nat)
      requires Valid() && now <= currentTime
      modifies `now
      ensures Valid() && now == currentTime
    {
      TimePasses(queue, back, now, currentTime);
      now := currentTime;
    }

    method DequeueAll()
      requires Valid()
      modifies `queueHead, `queueTail, `nonePendingHead, `queue, `back, `flagged, events`queued, events`next
      modifies events`previous
      ensures Valid()
      ensures State() == ClockQueue.DequeueAll(old(State()))
      ensures queue == [] && queueHead == null && queueTail == null && nonePendingHead == null && now == old(now)
      ensures forall e :: e in events ==> !e.queued
    {
      nonePendingHead := null;
      ClearAll();
      queueHead := null;
      queueTail := null;
      queue := [];
      back := [];
      flagged := {};
    }

    method ClearAll()
      requires Linked() && Flags() && Distinct(queue) && forall e :: e in flagged ==> Queued(queue, e)
      modifies events`queued, events`next, events`previous
      ensures forall e :: e in events ==> !e.queued
    {
      var event := queueHead;
      ghost var i := 0;
      while event != null
        invariant 0 <= i <= |queue|
        invariant event == if i < |queue| then queue[i].event else null
        invariant forall j {:trigger queue[j].event.next} :: i <= j < |queue| ==> queue[j].event.next == Successor(j)
        invariant forall j :: 0 <= j < i ==> !queue[j].event.queued
        invariant forall e :: e in events && e.queued ==> e in flagged
        decreases |queue| - i
      {
        DistinctFrom(queue, i);
        assert queue[i].event.next == Successor(i);
        var next := event.next;
        event.queued := false;
        event.next := null;
        event.previous := null;
        event := next;
        i := i + 1;
      }
    }

    constructor ()
      ensures Valid() && State() == ClockState([], None, 0) && events == {}
    {
      queueHead := null;
      queueTail := null;
      nonePendingHead := null;
      now := 0;
      queue := [];
      back := [];
      flagged := {};
      events := {};
    }

    // A new event that is connected to this clock
    method Register() returns (event: EventImpl)
      requires Valid()
      modifies `events
      ensures Valid() && fresh(event) && events == old(events) + {event}
      ensures !Queued(queue, event) && !event.queued
    {
      event := new EventImpl();
      events := events + {event};
    }

    method SetTime(event: EventImpl, time: nat)
      requires Valid() && event in events && !Queued(queue, event)
      modifies event`nextActivation
      ensures Valid() && event.nextActivation == time
    {
      event.nextActivation := time;
    }

    method StartLater(event: EventImpl, time: nat, currentTime: nat) returns (shouldStartTimer: bool)
      requires Valid() && event in events && !Queued(queue, event) && now == currentTime < time
      modifies `queueHead, `queueTail, `nonePendingHead, `queue, `back, `flagged
      modifies events`next, events`previous, event`queued, event`nextActivation
      ensures Valid() && State() == ClockQueue.Enqueue(old(State()), Entry(event, time)) && event.queued
      ensures shouldStartTimer <==> !exists i :: 0 <= i < |old(queue)| && now < old(queue)[i].time <= time
    {
      SetTime(event, time);
      shouldStartTimer := Enqueue(currentTime, event);
    }

    // The event is not marked
    method StartNow(event: EventImpl, time: nat)
      requires Valid() && event in events && !Queued(queue, event) && time <= now
      modifies `queueHead, `queueTail, `queue, `back, events`next, events`previous, event`nextActivation
      ensures Valid() && State() == ClockQueue.PushHead(old(State()), Entry(event, time))
    {
      SetTime(event, time);
      EnqueueHead(event);
    }

    method StartFree(event: EventImpl, time: nat, currentTime: nat) returns (signalled: bool, timer: Option<nat>)
      requires Valid() && event in events && !Queued(queue, event) && now == currentTime
      modifies `queueHead, `queueTail, `nonePendingHead, `queue, `back, `flagged
      modifies events`next, events`previous, event`queued, event`nextActivation
      ensures Valid() && State() == ClockQueue.StartAt(old(State()), false, event, time)
      ensures signalled == (time <= now) && event.queued == (old(event.queued) || now < time)
      ensures timer.Some? <==>
        now < time && !exists i :: 0 <= i < |old(queue)| && now < old(queue)[i].time <= time
      ensures timer.Some? ==> timer.value == time - now
    {
      signalled, timer := false, None;
      var delay: int := time - currentTime;
      if delay > 0 {
        var shouldStartTimer := StartLater(event, time, currentTime);
        timer := if shouldStartTimer then Some(delay) else None;
      } else {
        StartNow(event, time);
        signalled := true;
      }
    }

    method StartAt(event: EventImpl, time: nat, currentTime: nat) returns (signalled: bool, timer: Option<nat>)
      requires Valid() && event in events && (Queued(queue, event) ==> event.queued) && now <= currentTime
      modifies `queueHead, `queueTail, `nonePendingHead, `queue, `back, `flagged, `now
      modifies events`next, events`previous, event`queued, event`nextActivation
      ensures Valid() && now == currentTime
      ensures State() == ClockQueue.StartAt(old(State()).(now := currentTime), old(event.queued), event, time)
      ensures event.queued == (old(event.queued) || now < time)
      ensures signalled == (!old(event.queued) && time <= now)
      ensures timer.Some? <==>
        !old(event.queued) && now < time && !exists i :: 0 <= i < |old(queue)| && now < old(queue)[i].time <= time
      ensures timer.Some? ==> timer.value == time - now
    {
      signalled, timer := false, None;
      ReadClock(currentTime);
      if !event.queued {
        signalled, timer := StartFree(event, time, currentTime);
      }
    }

    // Without a delay the event is due at once and is not marked
    method StartImmediately(event: EventImpl, currentTime: nat) returns (signalled: bool)
      requires Valid() && event in events && (Queued(queue, event) ==> event.queued) && now <= currentTime
      modifies `queueHead, `queueTail, `queue, `back, `now
      modifies events`next, events`previous, event`nextActivation
      ensures Valid() &&
        State() == ClockQueue.StartAt(old(State()).(now := currentTime), event.queued, event, currentTime)
      ensures signalled == !event.queued
    {
      signalled := false;
      ReadClock(currentTime);
      if !event.queued {
        StartNow(event, currentTime);
        signalled := true;
      }
    }

    // A delay counts from the reading currentTime; with one the start reads the clock a second time
    method StartIn(event: EventImpl, time: nat, currentTime: nat, laterTime: nat)
      returns (signalled: bool, timer: Option<nat>)
      requires Valid() && event in events && (Queued(queue, event) ==> event.queued) && now <= currentTime <= laterTime
      modifies `queueHead, `queueTail, `nonePendingHead, `queue, `back, `flagged, `now
      modifies events`next, events`previous, event`queued, event`nextActivation
      ensures Valid()
      ensures State() == ClockQueue.StartAt(old(State()).(now := if time != 0 then laterTime else currentTime),
                                            old(event.queued), event, currentTime + time)
      ensures event.queued == (old(event.queued) || laterTime < currentTime + time)
      ensures signalled == (!old(event.queued) && (time == 0 || currentTime + time <= laterTime))
      ensures timer.Some? <==>
        && !old(event.queued) && time != 0 && laterTime < currentTime + time
        && !exists i :: 0 <= i < |old(queue)| && laterTime < old(queue)[i].time <= currentTime + time
      ensures timer.Some? ==> timer.value == currentTime + time - laterTime
    {
      if time != 0 {
        signalled, timer := StartAt(event, currentTime + time, laterTime);
        return;
      }
      timer := None;
      signalled := StartImmediately(event, currentTime);
    }
  }
}

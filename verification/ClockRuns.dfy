/** Runs of the clock queue: what every sequence of operations keeps. */
module ClockRuns {
  import opened Sequences
  import opened ClockQueue

  datatype Step<E> =
    | Tick(later: nat)
    | Start(event: E, time: nat)
    | Stop(event: E)
    | ReadPending
    | AskNextStart
    | Clear

  // The queue with the events that are marked as queued
  datatype Marked<E> = Marked(clock: ClockState<E>, marks: set<E>)

  function Apply<E(==)>(s: Marked<E>, step: Step<E>): Marked<E> {
    var clock := s.clock;
    match step
    case Tick(later) => if clock.now <= later then s.(clock := clock.(now := later)) else s
    case Start(event, time) =>
      Marked(StartAt(clock, event in s.marks, event, time), if clock.now < time then s.marks + {event} else s.marks)
    case Stop(event) => Marked(Dequeue(clock, event), s.marks - {event})
    case ReadPending =>
      var (event, after) := ReadFirstPending(clock);
      Marked(after, if event.Some? then s.marks - {event.value} else s.marks)
    case AskNextStart => s.(clock := NextStartTime(clock).1)
    case Clear => Marked(DequeueAll(clock), set e | e in s.marks && IndexOf(clock.queue, e) == |clock.queue|)
  }

  ghost predicate WellFormed<E>(s: ClockState<E>) {
    Ordered(s.queue, s.now) && Distinct(s.queue) && Cached(s.queue, s.cache)
  }

  // Every event for later is marked, and only queued events are
  ghost predicate Sound<E>(s: Marked<E>) {
    WellFormed(s.clock) && Flagged(s.clock.queue, s.marks, s.clock.now)
  }

  // An event that is in the queue without being marked must not be started
  ghost predicate Allowed<E>(s: Marked<E>, step: Step<E>) {
    step.Start? && Queued(s.clock.queue, step.event) ==> step.event in s.marks
  }

  lemma {:induction false} StepKeepsWellFormed<E>(s: Marked<E>, step: Step<E>)
    requires Sound(s) && Allowed(s, step)
    ensures Sound(Apply(s, step))
  {
    var clock := s.clock;
    match step
    case Tick(later) =>
    case Start(event, time) =>
      if event !in s.marks {
        StartKeepsWellFormed(clock, event, time);
        StartKeepsMarks(clock, s.marks, event, time);
      }
    case Stop(event) =>
      DequeueKeepsWellFormed(clock, event);
      DequeueKeepsMarks(clock, s.marks, event);
    case ReadPending =>
      if clock.queue != [] {
        DequeueKeepsWellFormed(clock, clock.queue[0].event);
        DequeueKeepsMarks(clock, s.marks, clock.queue[0].event);
      }
    case AskNextStart =>
    case Clear =>
      forall e | e in s.marks ensures IndexOf(clock.queue, e) < |clock.queue| {
        QueuedIndex(clock.queue, e);
      }
  }

  lemma {:induction false} StartKeepsMarks<E>(s: ClockState<E>, marks: set<E>, event: E, time: nat)
    requires WellFormed(s) && Flagged(s.queue, marks, s.now) && !Queued(s.queue, event)
    ensures Flagged(StartAt(s, false, event, time).queue, if s.now < time then marks + {event} else marks, s.now)
  {
    var x, k := Entry(event, time), if s.now < time then Position(s.queue, time) else 0;
    var r := Splice(s.queue, x, k);
    assert StartAt(s, false, event, time).queue == r;
    InsertedMembers(s.queue, x, k, r);
  }

  lemma {:induction false} DequeueKeepsMarks<E>(s: ClockState<E>, marks: set<E>, event: E)
    requires WellFormed(s) && Flagged(s.queue, marks, s.now)
    ensures Flagged(Dequeue(s, event).queue, marks - {event}, s.now)
  {
    var k := IndexOf(s.queue, event);
    var r := s.queue;
    if k < |s.queue| {
      r := Cut(s.queue, k);
    }
    DequeuedFlags(s.queue, event, r, marks, s.cache, s.now);
  }

  lemma {:induction false} StartKeepsWellFormed<E>(s: ClockState<E>, event: E, time: nat)
    requires WellFormed(s) && !Queued(s.queue, event)
    ensures WellFormed(StartAt(s, false, event, time))
  {
    var x, k := Entry(event, time), if s.now < time then Position(s.queue, time) else 0;
    var r := Splice(s.queue, x, k);
    assert StartAt(s, false, event, time).queue == r;
    InsertedMembers(s.queue, x, k, r);
    InsertedCached(s.queue, x, k, r, s.cache);
    if s.now < time {
      InsertedSummary(s.queue, x, k, r, s.now);
    } else {
      PushedOrdered(s.queue, x, r, s.now);
    }
  }

  lemma {:induction false} PushedOrdered<E>(q: seq<Entry<E>>, x: Entry<E>, r: seq<Entry<E>>, now: nat)
    requires Ordered(q, now) && x.time <= now && InsertsAt(q, x, 0, r)
    ensures Ordered(r, now)
  {
    OrderedPairs(q, now);
  }

  lemma {:induction false} DequeueKeepsWellFormed<E>(s: ClockState<E>, event: E)
    requires WellFormed(s)
    ensures WellFormed(Dequeue(s, event))
  {
    var k := IndexOf(s.queue, event);
    if k < |s.queue| {
      var r := Cut(s.queue, k);
      RemovedIs(s.queue, k, r);
      RemovedOrdered(s.queue, k, r, s.now);
      RemovedMembers(s.queue, k, r);
      RemovedCached(s.queue, k, r, s.cache);
    }
  }

  function Run<E(==)>(s: Marked<E>, steps: seq<Step<E>>): Marked<E>
    decreases |steps|
  {
    if steps == [] then s else Run(Apply(s, steps[0]), steps[1..])
  }

  ghost predicate RunAllowed<E>(s: Marked<E>, steps: seq<Step<E>>)
    decreases |steps|
  {
    steps == [] || (Allowed(s, steps[0]) && RunAllowed(Apply(s, steps[0]), steps[1..]))
  }

  // In every state that an allowed run reaches an event is read exactly when one is due
  lemma {:induction false} RunReadsWhatIsDue<E>(s: Marked<E>, steps: seq<Step<E>>)
    requires Sound(s) && RunAllowed(s, steps)
    ensures Sound(Run(s, steps))
    ensures var t := Run(s, steps).clock;
      ReadFirstPending(t).0.Some? <==> exists i :: 0 <= i < |t.queue| && t.queue[i].time <= t.now
    decreases |steps|
  {
    if steps == [] {
      DueAtHead(s.clock.queue, s.clock.now);
    } else {
      StepKeepsWellFormed(s, steps[0]);
      RunReadsWhatIsDue(Apply(s, steps[0]), steps[1..]);
    }
  }

  // ---- which entries are queued

  lemma {:induction false} InsertedContains<E>(q: seq<Entry<E>>, x: Entry<E>, k: nat, r: seq<Entry<E>>, y: Entry<E>)
    requires InsertsAt(q, x, k, r)
    ensures Contains(r, y) <==> y == x || Contains(q, y)
  {
    if i :| 0 <= i < |q| && q[i] == y {
      assert r[if i < k then i else i + 1] == y;
    }
    if i :| 0 <= i < |r| && r[i] == y {
      assert i != k ==> q[if i < k then i else i - 1] == y;
    }
  }

  // A start adds the event with its time and nothing else
  lemma {:induction false} StartAdds<E>(s: ClockState<E>, event: E, time: nat, y: Entry<E>)
    requires !Queued(s.queue, event)
    ensures Contains(StartAt(s, false, event, time).queue, y) <==> y == Entry(event, time) || Contains(s.queue, y)
  {
    var x, k := Entry(event, time), if s.now < time then Position(s.queue, time) else 0;
    var r := Splice(s.queue, x, k);
    assert StartAt(s, false, event, time).queue == r;
    InsertedContains(s.queue, x, k, r, y);
  }

  // A removal takes the event out and nothing else
  lemma {:induction false} DequeueTakes<E>(s: ClockState<E>, event: E, y: Entry<E>)
    requires WellFormed(s)
    ensures Contains(Dequeue(s, event).queue, y) <==> Contains(s.queue, y) && y.event != event
  {
    var q, k, r := s.queue, IndexOf(s.queue, event), Dequeue(s, event).queue;
    if k < |q| {
      assert RemovesAt(q, k, r);
      RemovedContains(q, k, r, y);
    }
  }

  lemma {:induction false} RemovedContains<E>(q: seq<Entry<E>>, k: nat, r: seq<Entry<E>>, y: Entry<E>)
    requires Distinct(q) && RemovesAt(q, k, r)
    ensures Contains(r, y) <==> Contains(q, y) && y.event != q[k].event
  {
    DistinctFrom(q, k);
    if i :| 0 <= i < |q| && q[i] == y && i != k {
      assert r[if i < k then i else i - 1] == y;
    }
    if i :| 0 <= i < |r| && r[i] == y {
      assert q[if i < k then i else i + 1] == y;
    }
  }

  // What is read is the head of the queue, which leaves it
  lemma {:induction false} ReadTakesHead<E>(s: ClockState<E>)
    requires WellFormed(s)
    ensures var (event, after) := ReadFirstPending(s);
      if event.Some? then
        s.queue != [] && event.value == s.queue[0].event && s.queue[0].time <= s.now && after.queue == s.queue[1..]
      else after == s
  {
    if s.queue != [] {
      assert IndexOf(s.queue, s.queue[0].event) == 0;
    }
  }

  // ---- the insertion as a stable insertion into the sorted part

  // Insertion behind all entries that are not later, searched from the front
  function SortedInsert<E>(q: seq<Entry<E>>, x: Entry<E>): seq<Entry<E>> {
    if q == [] || x.time < q[0].time then [x] + q else [q[0]] + SortedInsert(q[1..], x)
  }

  lemma {:induction false} SortedInsertTail<E>(q: seq<Entry<E>>, x: Entry<E>, d: nat, k: nat)
    requires d <= k <= |q| && (forall i :: d <= i < k ==> q[i].time <= x.time) && (k < |q| ==> x.time < q[k].time)
    ensures q[..d] + SortedInsert(q[d..], x) == q[..k] + [x] + q[k..]
    decreases k - d
  {
    if d < k {
      SortedInsertTail(q, x, d + 1, k);
      assert q[d..][1..] == q[d + 1..];
      assert q[..d] + [q[d]] == q[..d + 1];
    }
  }

  // What is due comes first and what is later comes sorted
  lemma {:induction false} DueThenSorted<E>(q: seq<Entry<E>>, now: nat, d: nat)
    requires Ordered(q, now) && d == FirstFuture(q, 0, now)
    ensures forall i :: 0 <= i < d ==> q[i].time <= now
    ensures forall i, j :: d <= i <= j < |q| ==> now < q[i].time <= q[j].time
  {
    OrderedPairs(q, now);
  }

  // The due entries stay in front and the new one is sorted in behind them, first in first out for equal times
  lemma {:induction false} EnqueueSortsIn<E>(s: ClockState<E>, x: Entry<E>)
    requires WellFormed(s) && s.now < x.time
    ensures var d := FirstFuture(s.queue, 0, s.now);
      Enqueue(s, x).queue == s.queue[..d] + SortedInsert(s.queue[d..], x)
  {
    var q, d, k := s.queue, FirstFuture(s.queue, 0, s.now), Position(s.queue, x.time);
    PlaceBehindDue(q, x, s.now);
    SortedInsertTail(q, x, d, k);
  }

  lemma {:induction false} PlaceBehindDue<E>(q: seq<Entry<E>>, x: Entry<E>, now: nat)
    requires Ordered(q, now) && now < x.time
    ensures var d, k := FirstFuture(q, 0, now), Position(q, x.time);
      d <= k && forall i :: d <= i < k ==> q[i].time <= x.time
  {
    var d, k := FirstFuture(q, 0, now), Position(q, x.time);
    DueThenSorted(q, now, d);
    assert k < |q| ==> x.time < q[k].time;
  }

  // Stopping an event right after its start leaves the queue as it was
  lemma {:induction false} StopUndoesStart<E>(s: ClockState<E>, event: E, time: nat)
    requires WellFormed(s) && !Queued(s.queue, event)
    ensures Dequeue(StartAt(s, false, event, time), event).queue == s.queue
  {
    var x, k := Entry(event, time), if s.now < time then Position(s.queue, time) else 0;
    var r := Splice(s.queue, x, k);
    assert StartAt(s, false, event, time).queue == r;
    InsertedMembers(s.queue, x, k, r);
    InsertedRemoved(s.queue, x, k, r);
    RemovedIs(r, k, s.queue);
  }

  // ---- the cached search start

  // No entry later than now is in front of the cached one
  ghost predicate SoundStart<E>(q: seq<Entry<E>>, cache: Option<E>, now: nat) {
    cache.Some? ==> forall i :: 0 <= i < IndexOf(q, cache.value) ==> q[i].time <= now
  }

  ghost predicate CacheSound<E>(s: ClockState<E>) {
    SoundStart(s.queue, s.cache, s.now)
  }

  // An empty cache means that nothing is later than now
  ghost predicate CacheFull<E>(s: ClockState<E>) {
    s.cache.None? ==> forall i :: 0 <= i < |s.queue| ==> s.queue[i].time <= s.now
  }

  // t is the earliest time later than now, or zero when there is none
  ghost predicate Earliest<E>(q: seq<Entry<E>>, now: nat, t: nat) {
    if t == 0 then forall i :: 0 <= i < |q| ==> q[i].time <= now
    else
      && now < t && (exists i :: 0 <= i < |q| && q[i].time == t)
      && forall i :: 0 <= i < |q| && now < q[i].time ==> t <= q[i].time
  }

  lemma {:induction false} SoundSearch<E>(s: ClockState<E>)
    requires WellFormed(s) && CacheSound(s)
    ensures Earliest(s.queue, s.now, NextStartTime(s).0)
  {
    var q, k := s.queue, FirstFuture(s.queue, SearchStart(s), s.now);
    OrderedPairs(q, s.now);
    if s.cache.Some? {
      QueuedIndex(q, s.cache.value);
    }
  }

  lemma {:induction false} QueuedIndex<E>(q: seq<Entry<E>>, event: E)
    ensures Queued(q, event) <==> IndexOf(q, event) < |q|
  {
  }

  // The one insertion that damages the cache: it ends up at the tail behind a later entry while nothing was cached
  ghost predicate LosesStart<E>(q: seq<Entry<E>>, cache: Option<E>, k: nat, now: nat) {
    cache.None? && q != [] && k == |q| && exists i :: 0 <= i < |q| && now < q[i].time
  }

  lemma {:induction false} InsertedSound<E>(q: seq<Entry<E>>, x: Entry<E>, k: nat, r: seq<Entry<E>>, cache: Option<E>,
                                            now: nat)
    requires InsertsAt(q, x, k, r) && Place(q, x, k, now) && Distinct(q) && !Queued(q, x.event)
    requires Cached(q, cache) && SoundStart(q, cache, now)
    ensures SoundStart(r, InsertedCache(q, cache, x.event, k), now) <==> !LosesStart(q, cache, k, now)
  {
    InsertedIndex(q, x, k, r);
    if cache == EventAt(q, k) {
      if k < |q| {
        DistinctFrom(q, k);
      } else if LosesStart(q, cache, k, now) {
        var i :| 0 <= i < |q| && now < q[i].time;
        assert r[i] == q[i];
      }
    } else if cache.Some? {
      SoundInFront(q, x, k, cache.value, now);
    }
  }

  // What is cached soundly stays in front of everything inserted behind it
  lemma {:induction false} SoundInFront<E>(q: seq<Entry<E>>, x: Entry<E>, k: nat, event: E, now: nat)
    requires Place(q, x, k, now) && Queued(q, event) && SoundStart(q, Some(event), now) && EventAt(q, k) != Some(event)
    ensures IndexOf(q, event) < k
  {
    QueuedIndex(q, event);
    assert k < |q| ==> x.time < q[k].time;
  }

  lemma {:induction false} EnqueueKeepsCacheIff<E>(s: ClockState<E>, x: Entry<E>)
    requires WellFormed(s) && CacheSound(s) && !Queued(s.queue, x.event) && s.now < x.time
    ensures CacheSound(Enqueue(s, x)) <==> !LosesStart(s.queue, s.cache, Position(s.queue, x.time), s.now)
  {
    var q, k := s.queue, Position(s.queue, x.time);
    var r := Splice(q, x, k);
    InsertedSummary(q, x, k, r, s.now);
    InsertedSound(q, x, k, r, s.cache, s.now);
  }

  ghost predicate ComesBefore<E>(q: seq<Entry<E>>, now: nat, time: nat) {
    exists i :: 0 <= i < |q| && now < q[i].time < time
  }

  lemma {:induction false} EarliestLast<E>(q: seq<Entry<E>>, x: Entry<E>, r: seq<Entry<E>>, now: nat)
    requires InsertsAt(q, x, |q|, r) && now < x.time
    ensures Earliest(r, now, x.time) <==> !ComesBefore(q, now, x.time)
  {
    assert r[|q|].time == x.time;
    assert forall i :: 0 <= i < |q| ==> r[i] == q[i];
  }

  // The search starts at the new entry, which hides what is in front of it
  lemma {:induction false} LostAnswer<E>(s: ClockState<E>, x: Entry<E>, r: seq<Entry<E>>)
    requires WellFormed(s) && !Queued(s.queue, x.event) && s.now < x.time && InsertsAt(s.queue, x, |s.queue|, r)
    ensures NextStartTime(ClockState(r, Some(x.event), s.now)).0 == x.time
  {
    InsertedIndex(s.queue, x, |s.queue|, r);
  }

  // A question right after an insertion is answered wrongly exactly if the new entry is the last one, nothing was
  // cached and an earlier entry is still to come
  lemma {:induction false} AskAfterEnqueue<E>(s: ClockState<E>, x: Entry<E>)
    requires WellFormed(s) && CacheSound(s) && !Queued(s.queue, x.event) && s.now < x.time
    ensures var t, q := Enqueue(s, x), s.queue;
      Earliest(t.queue, t.now, NextStartTime(t).0) <==>
      !(s.cache.None? && Position(q, x.time) == |q| && ComesBefore(q, s.now, x.time))
  {
    var q, k, t := s.queue, Position(s.queue, x.time), Enqueue(s, x);
    var r := Splice(q, x, k);
    InsertedSummary(q, x, k, r, s.now);
    EnqueueKeepsCacheIff(s, x);
    StartKeepsWellFormed(s, x.event, x.time);
    QueuedIndex(q, x.event);
    if LosesStart(q, s.cache, k, s.now) {
      LostAnswer(s, x, r);
      EarliestLast(q, x, r, s.now);
    } else {
      SoundSearch(t);
    }
  }

  lemma {:induction false} InsertedIndex<E>(q: seq<Entry<E>>, x: Entry<E>, k: nat, r: seq<Entry<E>>)
    requires InsertsAt(q, x, k, r) && Distinct(q) && !Queued(q, x.event)
    ensures IndexOf(r, x.event) == k
    ensures forall i :: 0 <= i < |q| ==> IndexOf(r, q[i].event) == if i < k then i else i + 1
  {
    InsertedMembers(q, x, k, r);
    DistinctFrom(r, k);
    forall i | 0 <= i < |q| ensures IndexOf(r, q[i].event) == if i < k then i else i + 1 {
      DistinctFrom(r, if i < k then i else i + 1);
    }
  }

  lemma {:induction false} RemovedIndex<E>(q: seq<Entry<E>>, k: nat, r: seq<Entry<E>>)
    requires RemovesAt(q, k, r) && Distinct(q)
    ensures forall i :: 0 <= i < |r| ==> IndexOf(q, r[i].event) == if i < k then i else i + 1
    ensures forall i :: 0 <= i < |r| ==> IndexOf(r, r[i].event) == i
  {
    RemovedMembers(q, k, r);
    forall i | 0 <= i < |r|
      ensures IndexOf(q, r[i].event) == (if i < k then i else i + 1) && IndexOf(r, r[i].event) == i
    {
      DistinctFrom(q, if i < k then i else i + 1);
      DistinctFrom(r, i);
    }
  }

  lemma {:induction false} DequeueKeepsCache<E>(s: ClockState<E>, event: E)
    requires WellFormed(s) && CacheSound(s)
    ensures CacheSound(Dequeue(s, event)) && (CacheFull(s) ==> CacheFull(Dequeue(s, event)))
  {
    var k := IndexOf(s.queue, event);
    if k < |s.queue| {
      var r := Cut(s.queue, k);
      RemovedIs(s.queue, k, r);
      RemovedKeepsCache(s.queue, s.cache, k, r, s.now);
    }
  }

  lemma {:induction false} RemovedKeepsCache<E>(q: seq<Entry<E>>, cache: Option<E>, k: nat, r: seq<Entry<E>>, now: nat)
    requires RemovesAt(q, k, r) && Distinct(q) && Cached(q, cache) && SoundStart(q, cache, now)
    ensures SoundStart(r, RemovedCache(q, cache, k), now)
    ensures (cache.None? ==> forall i :: 0 <= i < |q| ==> q[i].time <= now) ==>
      RemovedCache(q, cache, k).None? ==> forall i :: 0 <= i < |r| ==> r[i].time <= now
  {
    if cache.Some? {
      RemovedSound(q, k, r, cache.value, now);
    }
  }

  lemma {:induction false} RemovedSound<E>(q: seq<Entry<E>>, k: nat, r: seq<Entry<E>>, event: E, now: nat)
    requires RemovesAt(q, k, r) && Distinct(q) && Queued(q, event) && SoundStart(q, Some(event), now)
    ensures var cache := RemovedCache(q, Some(event), k);
      && SoundStart(r, cache, now)
      && (cache.None? ==> forall i :: 0 <= i < |r| ==> r[i].time <= now)
  {
    RemovedIndex(q, k, r);
    QueuedIndex(q, event);
    DistinctFrom(q, k);
    var c := IndexOf(q, event);
    assert c != k ==> r[if c < k then c else c - 1].event == event;
    assert c == k && k < |r| ==> r[k].event == q[k + 1].event;
  }

  lemma {:induction false} PushKeepsCache<E>(s: ClockState<E>, x: Entry<E>)
    requires WellFormed(s) && CacheSound(s) && !Queued(s.queue, x.event) && x.time <= s.now
    ensures CacheSound(PushHead(s, x)) && (CacheFull(s) ==> CacheFull(PushHead(s, x)))
  {
    var r := Splice(s.queue, x, 0);
    assert r == [x] + s.queue;
    InsertedIndex(s.queue, x, 0, r);
    if s.cache.Some? {
      QueuedIndex(s.queue, s.cache.value);
    }
  }

  lemma {:induction false} EnqueueKeepsCache<E>(s: ClockState<E>, x: Entry<E>)
    requires WellFormed(s) && CacheSound(s) && CacheFull(s) && !Queued(s.queue, x.event) && s.now < x.time
    ensures CacheSound(Enqueue(s, x)) && (s.queue != [] ==> CacheFull(Enqueue(s, x)))
  {
    EnqueueKeepsCacheIff(s, x);
    var k := Position(s.queue, x.time);
    assert k < |s.queue| ==> s.now < s.queue[k].time;
  }

  lemma {:induction false} AskKeepsCache<E>(s: ClockState<E>)
    requires WellFormed(s) && CacheSound(s)
    ensures CacheSound(NextStartTime(s).1) && CacheFull(NextStartTime(s).1)
  {
    var q, c := s.queue, SearchStart(s);
    var k := FirstFuture(q, c, s.now);
    if s.cache.Some? {
      QueuedIndex(q, s.cache.value);
    }
    if k < |q| {
      DistinctFrom(q, k);
    }
  }

  // Step queues an event for later
  predicate Queues<E(==)>(s: Marked<E>, step: Step<E>) {
    step.Start? && step.event !in s.marks && s.clock.now < step.time
  }

  // After a step that queues into an empty queue the next start time is asked before the next step that queues;
  // mustAsk tells that this question is open
  predicate Disciplined<E(==)>(s: Marked<E>, steps: seq<Step<E>>, mustAsk: bool)
    decreases |steps|
  {
    steps == [] ||
    ((mustAsk ==> !Queues(s, steps[0])) &&
      Disciplined(Apply(s, steps[0]), steps[1..], OpenQuestion(s, steps[0], mustAsk)))
  }

  predicate OpenQuestion<E(==)>(s: Marked<E>, step: Step<E>, mustAsk: bool) {
    if step.AskNextStart? then false else if Queues(s, step) then s.clock.queue == [] else mustAsk
  }

  // Every question of the run is answered with the earliest later time of the whole queue
  ghost predicate AnswersEarliest<E>(s: Marked<E>, steps: seq<Step<E>>)
    decreases |steps|
  {
    steps != [] ==>
      && (steps[0].AskNextStart? ==> Earliest(s.clock.queue, s.clock.now, NextStartTime(s.clock).0))
      && AnswersEarliest(Apply(s, steps[0]), steps[1..])
  }

  lemma {:induction false} StepKeepsCache<E>(s: Marked<E>, step: Step<E>, mustAsk: bool)
    requires Sound(s) && CacheSound(s.clock) && Allowed(s, step)
    requires (mustAsk || CacheFull(s.clock)) && (mustAsk ==> !Queues(s, step))
    ensures CacheSound(Apply(s, step).clock)
    ensures OpenQuestion(s, step, mustAsk) || CacheFull(Apply(s, step).clock)
  {
    var clock := s.clock;
    match step
    case Tick(later) =>
    case Start(event, time) =>
      if Queues(s, step) {
        EnqueueKeepsCache(clock, Entry(event, time));
      } else if event !in s.marks {
        PushKeepsCache(clock, Entry(event, time));
      }
    case Stop(event) => DequeueKeepsCache(clock, event);
    case ReadPending =>
      if clock.queue != [] {
        DequeueKeepsCache(clock, clock.queue[0].event);
      }
    case AskNextStart => AskKeepsCache(clock);
    case Clear =>
  }

  lemma {:induction false} DisciplinedRunAnswers<E>(s: Marked<E>, steps: seq<Step<E>>, mustAsk: bool)
    requires Sound(s) && CacheSound(s.clock) && (mustAsk || CacheFull(s.clock))
    requires RunAllowed(s, steps) && Disciplined(s, steps, mustAsk)
    ensures AnswersEarliest(s, steps)
    decreases |steps|
  {
    if steps != [] {
      if steps[0].AskNextStart? {
        SoundSearch(s.clock);
      }
      StepKeepsWellFormed(s, steps[0]);
      StepKeepsCache(s, steps[0], mustAsk);
      DisciplinedRunAnswers(Apply(s, steps[0]), steps[1..], OpenQuestion(s, steps[0], mustAsk));
    }
  }

  // Two events for later in an empty queue, and the search skips the first one
  lemma {:induction false} UndisciplinedRunFails()
    ensures var s := Apply(Apply(Marked(ClockState([], None, 0), {}), Start(1, 5)), Start(2, 7)).clock;
      NextStartTime(s).0 == 7 && !Earliest(s.queue, s.now, 7)
  {
    var s1 := Apply(Marked(ClockState([], None, 0), {}), Start(1, 5)).clock;
    assert Position<int>([], 5) == 0;
    assert s1.queue == [Entry(1, 5)] && s1.cache == None;
    var s2 := Apply(Marked(s1, {1}), Start(2, 7)).clock;
    PositionIs(s1.queue, 7, 1);
    assert s2.queue == [Entry(1, 5), Entry(2, 7)] && s2.cache == Some(2);
    assert IndexOf(s2.queue, 2) == 1 by {
      assert s2.queue[1..] == [Entry(2, 7)];
    }
  }
}

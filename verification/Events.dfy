/** Time events set up for periodic or relative timing. */
module Events {
  import opened Arithmetic
  import opened Sequences
  import opened ClockQueue
  import opened ClockRuns
  import opened Clock

  // The start time for readings t1 of the clock in the test and t2 in the computation
  function FirstStart(period: nat, offset: nat, t1: nat, t2: nat): nat
    requires t1 <= t2
  {
    if t1 <= offset then offset
    else if period > 0 then offset + ((t2 - offset) / period + 1) * period
    else t2
  }

  // A late periodic start is moved to the first time later than now that is n periods after the offset
  lemma {:induction false} FirstStartIsLeast(period: nat, offset: nat, t1: nat, t2: nat) returns (n: nat)
    requires t1 <= t2 && 0 < period && offset < t1
    ensures FirstStart(period, offset, t1, t2) == offset + n * period
    ensures 0 < n && offset + (n - 1) * period <= t2 < offset + n * period
  {
    n := (t2 - offset) / period + 1;
    assert n * period == (n - 1) * period + period;
  }

  // With one reading t of the clock nothing on the grid is between t and the first start
  lemma {:induction false} NoEarlierStart(period: nat, offset: nat, t: nat, m: nat)
    requires t < offset + m * period || (m == 0 && t == offset)
    ensures FirstStart(period, offset, t, t) <= offset + m * period
  {
    if offset < t {
      assert 0 < period;
      var n := FirstStartIsLeast(period, offset, t, t);
      assert n <= m by {
        if m < n {
          FewerTimes(m, n - 1, period);
          assert false;
        }
      }
      FewerTimes(n, m, period);
    } else {
      assert 0 <= m * period;
    }
  }

  // The first start is not after any grid time from now on, exactly if the offset is still to come or now is not a
  // later grid time itself
  lemma {:induction false} FirstStartExactly(period: nat, offset: nat, t: nat)
    requires 0 < period
    ensures (forall m: nat :: t <= offset + m * period ==> FirstStart(period, offset, t, t) <= offset + m * period)
      <==> (t <= offset || (t - offset) % period != 0)
  {
    if t <= offset {
      forall m: nat ensures offset <= offset + m * period { assert 0 <= m * period; }
    } else {
      var k := (t - offset) / period;
      assert t == offset + k * period + (t - offset) % period;
      if (t - offset) % period == 0 {
        assert FirstStart(period, offset, t, t) == offset + (k + 1) * period;
        assert (k + 1) * period == k * period + period;
      } else {
        forall m: nat | t <= offset + m * period ensures FirstStart(period, offset, t, t) <= offset + m * period {
          if t == offset + m * period {
            NoRemainder(m, period);
            assert false;
          }
          NoEarlierStart(period, offset, t, m);
        }
      }
    }
  }

  lemma {:induction false} NoRemainder(m: nat, period: nat)
    requires 0 < period
    ensures (m * period) % period == 0
  {
    Quotient(m * period, period, m);
    assert m * period == period * m;
  }

  method ConfigurePeriodicTiming(event: EventImpl, period: nat, offset: nat, t1: nat, t2: nat)
    requires t1 <= t2
    modifies event`period, event`nextActivation, event`periodical, event`configured
    ensures event.period == period && event.nextActivation == FirstStart(period, offset, t1, t2)
    ensures event.periodical == event.configured == (0 < period)
  {
    event.period := period;
    event.nextActivation := offset;
    event.periodical := period > 0;
    if t1 > offset {
      if period > 0 {
        event.nextActivation := event.nextActivation + ((t2 - offset) / period + 1) * period;
      } else {
        event.nextActivation := t2;
      }
    }
    event.configured := event.periodical;
  }

  // Only an event that is marked as queued is taken out of the queue
  method Unqueue(clock: Clock, event: EventImpl)
    requires clock.Valid() && event in clock.events && (Queued(clock.queue, event) ==> event.queued)
    modifies clock`queueHead, clock`queueTail, clock`nonePendingHead, clock`queue, clock`back, clock`flagged
    modifies clock.events`next, clock.events`previous, event`queued
    ensures clock.Valid() && !Queued(clock.queue, event) && !event.queued
    ensures clock.State() == ClockQueue.Dequeue(old(clock.State()), event)
  {
    if event.queued {
      clock.Dequeue(event);
    } else {
      QueuedIndex(clock.queue, event);
    }
  }

  // Outside of the queue the event gets its new timing
  method Reconfigure(clock: Clock, event: EventImpl, period: nat, offset: nat, t1: nat, t2: nat)
    requires clock.Valid() && event in clock.events && (Queued(clock.queue, event) ==> event.queued) && t1 <= t2
    modifies clock`queueHead, clock`queueTail, clock`nonePendingHead, clock`queue, clock`back, clock`flagged
    modifies clock.events`next, clock.events`previous, event`queued
    modifies event`period, event`nextActivation, event`periodical, event`configured
    ensures clock.Valid() && !Queued(clock.queue, event) && !event.queued
    ensures clock.State() == ClockQueue.Dequeue(old(clock.State()), event)
    ensures event.period == period && event.nextActivation == FirstStart(period, offset, t1, t2)
    ensures event.periodical == event.configured == (0 < period)
  {
    Unqueue(clock, event);
    ConfigurePeriodicTiming(event, period, offset, t1, t2);
  }

  // The queue after an event has been taken out and started again
  function Restarted(s: ClockState<EventImpl>, event: EventImpl, time: nat, now: nat): ClockState<EventImpl> {
    ClockQueue.StartAt(ClockQueue.Dequeue(s, event).(now := now), false, event, time)
  }

  // The event is queued with the new time, and everything else as before
  lemma {:induction false} RestartedEntries(s: ClockState<EventImpl>, event: EventImpl, time: nat, now: nat,
                                            y: Entry<EventImpl>)
    requires WellFormed(s)
    ensures Contains(Restarted(s, event, time, now).queue, y) <==>
      y == Entry(event, time) || (Contains(s.queue, y) && y.event != event)
  {
    var d := ClockQueue.Dequeue(s, event).(now := now);
    assert !Queued(d.queue, event) by {
      forall i | 0 <= i < |d.queue| ensures d.queue[i].event != event {
        assert Contains(d.queue, d.queue[i]);
        DequeueTakes(s, event, d.queue[i]);
      }
    }
    StartAdds(d, event, time, y);
    DequeueTakes(s, event, y);
  }

  // Exactly one queued entry is that of the event: an offset to come, a missed one at once without a period, and the
  // first later time on the grid with one
  ghost predicate QueuedFor(q: seq<Entry<EventImpl>>, event: EventImpl, period: nat, offset: nat, t1: nat, t2: nat) {
    if t1 <= offset then Contains(q, Entry(event, offset))
    else if period == 0 then Contains(q, Entry(event, t2))
    else exists time: nat :: Contains(q, Entry(event, time)) && OnGrid(period, offset, time) && t2 < time <= t2 + period
  }

  ghost predicate OnGrid(period: nat, offset: nat, time: nat) {
    exists n: nat :: time == offset + n * period
  }

  lemma {:induction false} RestartedFor(s: ClockState<EventImpl>, event: EventImpl, period: nat, offset: nat,
                                        t1: nat, t2: nat, now: nat)
    requires WellFormed(s) && t1 <= t2
    ensures QueuedFor(Restarted(s, event, FirstStart(period, offset, t1, t2), now).queue, event, period, offset, t1, t2)
  {
    var time := FirstStart(period, offset, t1, t2);
    RestartedEntries(s, event, time, now, Entry(event, time));
    if offset < t1 && 0 < period {
      var n := FirstStartIsLeast(period, offset, t1, t2);
      assert n * period == (n - 1) * period + period;
      assert OnGrid(period, offset, time);
    }
  }

  method SetPeriodicTiming(clock: Clock, event: EventImpl, period: nat, offset: nat, t1: nat, t2: nat, t3: nat)
    requires clock.Valid() && event in clock.events && (Queued(clock.queue, event) ==> event.queued)
    requires clock.now <= t1 <= t2 <= t3
    modifies clock`queueHead, clock`queueTail, clock`nonePendingHead, clock`queue, clock`back, clock`flagged, clock`now
    modifies clock.events`next, clock.events`previous, event`queued
    modifies event`period, event`nextActivation, event`periodical, event`configured
    ensures clock.Valid() && event.period == period && event.periodical == event.configured == (0 < period)
    ensures clock.State() == Restarted(old(clock.State()), event, FirstStart(period, offset, t1, t2), t3)
    ensures event.queued == (t3 < FirstStart(period, offset, t1, t2))
    ensures QueuedFor(clock.queue, event, period, offset, t1, t2)
  {
    RestartedFor(clock.State(), event, period, offset, t1, t2, t3);
    Reconfigure(clock, event, period, offset, t1, t2);
    StartConfigured(clock, event, t3);
  }

  method StartConfigured(clock: Clock, event: EventImpl, t3: nat)
    requires clock.Valid() && event in clock.events && !Queued(clock.queue, event) && !event.queued && clock.now <= t3
    modifies clock`queueHead, clock`queueTail, clock`nonePendingHead, clock`queue, clock`back, clock`flagged, clock`now
    modifies clock.events`next, clock.events`previous, event`queued, event`nextActivation
    ensures clock.Valid() && event.queued == (t3 < old(event.nextActivation))
    ensures event.period == old(event.period) && event.periodical == old(event.periodical)
    ensures event.configured == old(event.configured)
    ensures clock.State() == ClockQueue.StartAt(old(clock.State()).(now := t3), false, event, old(event.nextActivation))
  {
    var _, _ := clock.StartAt(event, event.nextActivation, t3);
  }

  method StartDelay(clock: Clock, event: EventImpl, delay: nat, t1: nat, t2: nat)
    requires clock.Valid() && event in clock.events && !Queued(clock.queue, event) && !event.queued
    requires clock.now <= t1 <= t2
    modifies clock`queueHead, clock`queueTail, clock`nonePendingHead, clock`queue, clock`back, clock`flagged, clock`now
    modifies clock.events`next, clock.events`previous, event`queued, event`nextActivation
    ensures clock.Valid() && event.queued == (t2 < t1 + delay)
    ensures clock.State() ==
      ClockQueue.StartAt(old(clock.State()).(now := if delay != 0 then t2 else t1), false, event, t1 + delay)
  {
    var _, _ := clock.StartIn(event, delay, t1, t2);
  }

  method Restart(clock: Clock, event: EventImpl, delay: nat, t1: nat, t2: nat)
    requires clock.Valid() && event in clock.events && (Queued(clock.queue, event) ==> event.queued)
    requires clock.now <= t1 <= t2
    modifies clock`queueHead, clock`queueTail, clock`nonePendingHead, clock`queue, clock`back, clock`flagged, clock`now
    modifies clock.events`next, clock.events`previous, event`queued, event`nextActivation
    ensures clock.Valid() && event.queued == (t2 < t1 + delay)
    ensures clock.State() == Restarted(old(clock.State()), event, t1 + delay, if delay != 0 then t2 else t1)
  {
    Unqueue(clock, event);
    StartDelay(clock, event, delay, t1, t2);
  }

  // The reset of an event with relative timing starts its delay again. After a delay of zero the event is queued
  // without being marked, and the next reset must not come before it has been handled.
  method Reset(clock: Clock, event: EventImpl, t1: nat, t2: nat)
    requires clock.Valid() && event in clock.events && (Queued(clock.queue, event) ==> event.queued)
    requires clock.now <= t1 <= t2
    modifies clock`queueHead, clock`queueTail, clock`nonePendingHead, clock`queue, clock`back, clock`flagged, clock`now
    modifies clock.events`next, clock.events`previous, event`queued, event`nextActivation
    ensures clock.Valid()
    ensures old(!event.configured || event.periodical) ==> clock.State() == old(clock.State())
    ensures old(event.configured && !event.periodical) ==> var delay := old(event.period);
      && event.queued == (t2 < t1 + delay)
      && clock.State() == Restarted(old(clock.State()), event, t1 + delay, if delay != 0 then t2 else t1)
  {
    var delay := event.period;
    if !event.configured || event.periodical {
      return;
    }
    Restart(clock, event, delay, t1, t2);
  }
}

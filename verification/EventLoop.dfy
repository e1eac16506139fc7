/** The event loop of the scheduler over the queue of the clock. */
module EventLoop {
  import opened Sequences
  import opened ClockQueue
  import opened ClockRuns
  import opened PeriodicEvents
  import opened PeriodicSchedules
  import opened Clock

  ghost function NextEntry(event: EventImpl): Entry<EventImpl>
    reads event`nextActivation, event`period
  {
    Entry(event, event.nextActivation + event.period)
  }

  // The queue, with the event that was read from it still in front
  ghost function Outstanding(clock: Clock, event: EventImpl?): seq<Entry<EventImpl>>
    reads clock`queue, (if event == null then {} else {event})`nextActivation
  {
    if event == null then clock.queue else [Entry(event, event.nextActivation)] + clock.queue
  }

  // event was read from the queue because it is due, or nothing is due
  ghost predicate InHand(clock: Clock, event: EventImpl?, currentTime: nat)
    reads clock`queue, clock`events, (if event == null then {} else {event})`nextActivation
  {
    if event == null then clock.queue == [] || currentTime < clock.queue[0].time
    else event in clock.events && !Queued(clock.queue, event) && event.nextActivation <= currentTime
  }

  // The periods of the events, zero for those that are not periodic
  ghost predicate Periods(clock: Clock, period: map<EventImpl, nat>)
    reads clock`events, clock.events`periodical, clock.events`period
  {
    forall e :: e in period ==>
      e in clock.events && (if e.periodical then 0 < e.period == period[e] else period[e] == 0)
  }

  class SchedulerImpl {
    const clock: Clock
    // The events whose channel was pushed, in the order of the pushes
    var pushed: seq<EventImpl>

    constructor (clock: Clock)
      ensures this.clock == clock && pushed == []
    {
      this.clock := clock;
      pushed := [];
    }

    // A periodic event is started again one period later
    method StartAgain(event: EventImpl, currentTime: nat)
      requires clock.Valid() && clock.now <= currentTime
      requires event in clock.events && !Queued(clock.queue, event)
      modifies clock`queueHead, clock`queueTail, clock`nonePendingHead, clock`queue, clock`back, clock`flagged
      modifies clock`now
      modifies clock.events`next, clock.events`previous, event`queued, event`nextActivation
      ensures clock.Valid()
      ensures clock.now == if event.periodical then currentTime else old(clock.now)
      ensures event.periodical ==> clock.queue == Started(old(clock.queue), old(NextEntry(event)), currentTime)
      ensures !event.periodical ==> clock.queue == old(clock.queue)
    {
      if event.periodical {
        StartFor(event, event.nextActivation + event.period, currentTime);
      }
    }

    // Handling of a time event that was just read from the queue; shallFire is the answer of its hook
    method Handle(event: EventImpl, currentTime: nat, shallFire: bool)
      requires clock.Valid() && clock.now <= currentTime
      requires event in clock.events && !Queued(clock.queue, event)
      modifies clock`queueHead, clock`queueTail, clock`nonePendingHead, clock`queue, clock`back, clock`flagged
      modifies clock`now
      modifies clock.events`next, clock.events`previous, event`queued, event`nextActivation, `pushed
      ensures clock.Valid()
      ensures clock.now == if event.periodical then currentTime else old(clock.now)
      ensures event.periodical ==> clock.queue == Started(old(clock.queue), old(NextEntry(event)), currentTime)
      ensures !event.periodical ==> clock.queue == old(clock.queue)
      ensures pushed == old(pushed) + if shallFire then [event] else []
    {
      StartAgain(event, currentTime);
      if shallFire {
        pushed := pushed + [event];
      }
    }

    method ReadOutstanding(currentTime: nat) returns (event: EventImpl?)
      requires clock.Valid() && clock.now == currentTime
      modifies clock`queueHead, clock`queueTail, clock`nonePendingHead, clock`queue, clock`back, clock`flagged
      modifies clock.events`next, clock.events`previous, clock.events`queued
      ensures clock.Valid()
      ensures Outstanding(clock, event) == old(clock.queue)
      ensures InHand(clock, event, currentTime)
    {
      ghost var s := clock.State();
      event := clock.ReadFirstPending(currentTime);
      if event != null {
        ReadSplits(s);
      }
    }

    // One round of the loop: the event is handled and the next one is read
    method HandleOne(event: EventImpl, currentTime: nat, ghost period: map<EventImpl, nat>) returns (next: EventImpl?)
      requires clock.Valid() && clock.now == currentTime && InHand(clock, event, currentTime)
      requires Periods(clock, period) && event in period
      modifies clock`queueHead, clock`queueTail, clock`nonePendingHead, clock`queue, clock`back, clock`flagged
      modifies clock`now
      modifies clock.events`next, clock.events`previous, clock.events`queued, event`nextActivation, `pushed
      ensures clock.Valid() && clock.now == currentTime && InHand(clock, next, currentTime)
      ensures Outstanding(clock, next) == Handled(old(Outstanding(clock, event)), period, currentTime)
      ensures pushed == old(pushed) + [event]
    {
      ghost var x, q := Entry(event, event.nextActivation), clock.queue;
      HandledFront(x, q, period, currentTime);
      assert Outstanding(clock, event) == [x] + q && (event.periodical ==> NextEntry(event) == Next(x, period));
      ghost var h := Handled([x] + q, period, currentTime);
      Handle(event, currentTime, true);
      assert clock.queue == h;
      next := ReadOutstanding(currentTime);
    }

    // What holds whenever the loop reads its condition: it came from q0 to q and has pushed the events fired
    ghost predicate Looping(event: EventImpl?, currentTime: nat, q0: seq<Entry<EventImpl>>, q: seq<Entry<EventImpl>>,
                            fired: seq<EventImpl>, period: map<EventImpl, nat>)
      reads clock`queue, clock`events, clock`now, (if event == null then {} else {event})`nextActivation
    {
      && clock.now == currentTime && InHand(clock, event, currentTime)
      && q == Outstanding(clock, event) && Reaches(q0, q, fired, period, currentTime)
    }

    method Round(event: EventImpl, currentTime: nat, ghost q0: seq<Entry<EventImpl>>, ghost q: seq<Entry<EventImpl>>,
                 ghost fired: seq<EventImpl>, ghost before: seq<EventImpl>, ghost period: map<EventImpl, nat>)
      returns (next: EventImpl?, ghost h: seq<Entry<EventImpl>>, ghost f: seq<EventImpl>)
      requires clock.Valid() && Looping(event, currentTime, q0, q, fired, period) && Periods(clock, period)
      requires pushed == before + fired
      modifies clock`queueHead, clock`queueTail, clock`nonePendingHead, clock`queue, clock`back, clock`flagged
      modifies clock`now
      modifies clock.events`next, clock.events`previous, clock.events`queued, event`nextActivation, `pushed
      ensures clock.Valid() && Looping(next, currentTime, q0, h, f, period) && pushed == before + f
      ensures Total(h, period, currentTime) < Total(q, period, currentTime)
    {
      assert q[0] == Entry(event, event.nextActivation);
      ReachesStep(q0, q, fired, period, currentTime);
      h, f := Handled(q, period, currentTime), fired + [event];
      assert before + fired + [event] == before + f;
      next := HandleOne(event, currentTime, period);
    }

    method HandleEvents(currentTime: nat, ghost period: map<EventImpl, nat>)
      requires clock.Valid() && clock.now == currentTime
      requires Periods(clock, period) && Known(clock.queue, period)
      modifies clock`queueHead, clock`queueTail, clock`nonePendingHead, clock`queue, clock`back, clock`flagged
      modifies clock`now
      modifies clock.events`next, clock.events`previous, clock.events`queued, clock.events`nextActivation, `pushed
      ensures clock.Valid() && clock.now == currentTime
      ensures clock.queue == HandleAll(old(clock.queue), period, currentTime).0
      ensures pushed == old(pushed) + HandleAll(old(clock.queue), period, currentTime).1
    {
      ReachesStart(clock.queue, period, currentTime);
      var event := ReadOutstanding(currentTime);
      HandleRest(event, currentTime, old(clock.queue), period);
    }

    // The loop itself, with the first event in hand
    method HandleRest(first: EventImpl?, currentTime: nat, ghost q0: seq<Entry<EventImpl>>,
                      ghost period: map<EventImpl, nat>)
      requires clock.Valid() && Looping(first, currentTime, q0, q0, [], period) && Periods(clock, period)
      modifies clock`queueHead, clock`queueTail, clock`nonePendingHead, clock`queue, clock`back, clock`flagged
      modifies clock`now
      modifies clock.events`next, clock.events`previous, clock.events`queued, clock.events`nextActivation, `pushed
      ensures clock.Valid() && clock.now == currentTime
      ensures clock.queue == HandleAll(q0, period, currentTime).0
      ensures pushed == old(pushed) + HandleAll(q0, period, currentTime).1
    {
      var event := first;
      ghost var q, fired, before := q0, [], pushed;
      while event != null
        invariant clock.Valid() && Looping(event, currentTime, q0, q, fired, period) && pushed == before + fired
        decreases Total(q, period, currentTime)
      {
        event, q, fired := Round(event, currentTime, q0, q, fired, before, period);
      }
      LoopEnds(currentTime, q0, q, fired, period);
    }

    lemma {:induction false} LoopEnds(currentTime: nat, q0: seq<Entry<EventImpl>>, q: seq<Entry<EventImpl>>,
                                      fired: seq<EventImpl>, period: map<EventImpl, nat>)
      requires Looping(null, currentTime, q0, q, fired, period)
      ensures Schedulable(q0, period, currentTime) && (clock.queue, fired) == HandleAll(q0, period, currentTime)
    {
      ReachesEnd(q0, q, fired, period, currentTime);
    }

    // The triggers at the active offset are pushed, and the next one becomes active
    method PlayOn(schedule: PeriodicScheduleImpl) returns (time: nat)
      requires schedule.Valid() && 0 <= schedule.active && 0 <= schedule.startTimeOffPeriod
      modifies schedule`activeTrigger, schedule`active, schedule`pushed, schedule`startTimeOffPeriod
      ensures schedule.Valid() && 0 <= schedule.active && 0 <= schedule.startTimeOffPeriod
      ensures PlaysOn(schedule, old(schedule.active), old(schedule.startTimeOffPeriod), old(schedule.pushed))
      ensures time == TriggerTime(schedule)
    {
      schedule.PushTriggers();
      time := schedule.StepToNextTriggerOffset();
    }

    // Handling of an event that plays a schedule: it is started again for the next trigger, and its own channel
    // is not pushed
    method HandleSchedule(event: EventImpl, schedule: PeriodicScheduleImpl, currentTime: nat)
      requires clock.Valid() && clock.now <= currentTime
      requires event in clock.events && !Queued(clock.queue, event) && event.periodical
      requires schedule.Valid() && 0 <= schedule.active && 0 <= schedule.startTimeOffPeriod
      modifies clock`queueHead, clock`queueTail, clock`nonePendingHead, clock`queue, clock`back, clock`flagged
      modifies clock`now
      modifies clock.events`next, clock.events`previous, event`queued, event`nextActivation
      modifies schedule`activeTrigger, schedule`active, schedule`pushed, schedule`startTimeOffPeriod
      ensures clock.Valid() && clock.now == currentTime
      ensures schedule.Valid() && 0 <= schedule.active && 0 <= schedule.startTimeOffPeriod
      ensures PlaysOn(schedule, old(schedule.active), old(schedule.startTimeOffPeriod), old(schedule.pushed))
      ensures clock.queue == Started(old(clock.queue), Entry(event, TriggerTime(schedule)), currentTime)
    {
      var time := PlayOn(schedule);
      StartFor(event, time, currentTime);
    }

    method StartFor(event: EventImpl, time: nat, currentTime: nat)
      requires clock.Valid() && clock.now <= currentTime
      requires event in clock.events && !Queued(clock.queue, event)
      modifies clock`queueHead, clock`queueTail, clock`nonePendingHead, clock`queue, clock`back, clock`flagged
      modifies clock`now
      modifies clock.events`next, clock.events`previous, event`queued, event`nextActivation
      ensures clock.Valid() && clock.now == currentTime
      ensures clock.queue == Started(old(clock.queue), Entry(event, time), currentTime)
    {
      ghost var s := clock.State().(now := currentTime);
      clock.Marked(event);
      var _, _ := clock.StartAt(event, time, currentTime);
      assert clock.queue == clock.State().queue;
      StartedQueue(s, event, time);
    }
  }

  // The schedule has pushed the row of triggers from active on and stepped to the next one
  ghost predicate PlaysOn(schedule: PeriodicScheduleImpl, active: int, start: int, pushed: seq<Trigger>)
    reads schedule
  {
    && 0 <= active < |schedule.list|
    && var e := RunEnd(schedule.list, active);
       && schedule.pushed == pushed + schedule.list[active..e + 1]
       && Player(schedule.active, schedule.startTimeOffPeriod) ==
         Advance(Player(e, start), |schedule.list|, schedule.period)
  }

  // The time of the active trigger
  ghost function TriggerTime(schedule: PeriodicScheduleImpl): nat
    requires schedule.Valid() && 0 <= schedule.active && 0 <= schedule.startTimeOffPeriod
    reads schedule, schedule.list`next
  {
    schedule.startTimeOffPeriod + schedule.list[schedule.active].offsetTime
  }

  // Handling after handling the schedule is played round by round: the pushes are those of the next round, and the
  // event is started for the time of the one after it
  lemma {:induction false} PlaysRounds(schedule: PeriodicScheduleImpl, active: int, start: int, pushed: seq<Trigger>,
                                       p: Player, m: nat)
    requires schedule.Valid() && 0 <= schedule.active && 0 <= schedule.startTimeOffPeriod
    requires PlaysOn(schedule, active, start, pushed) && -1 <= p.active < |schedule.list|
    requires Player(active, start) ==
      Advance(Rounds(schedule.list, schedule.period, p, m), |schedule.list|, schedule.period)
    ensures var list, period, next := schedule.list, schedule.period, Rounds(schedule.list, schedule.period, p, m + 1);
      && Player(schedule.active, schedule.startTimeOffPeriod) == Advance(next, |list|, period)
      && TriggerTime(schedule) == RoundTime(list, period, next)
      && schedule.pushed == pushed + list[active..next.active + 1]
  {
  }
}

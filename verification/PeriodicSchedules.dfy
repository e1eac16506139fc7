/** Periodic schedules: a sorted list of triggers that is played once per period. */
module PeriodicSchedules {
  import opened Sequences

  class Trigger {
    const offsetTime: nat
    var next: Trigger?

    constructor (offset: nat)
      ensures offsetTime == offset
    {
      offsetTime := offset;
      next := null;
    }
  }

  ghost predicate Sorted(list: seq<Trigger>) {
    forall i, j {:trigger Pair(i, j)} :: Pair(i, j) && 0 <= i < j < |list| ==> list[i].offsetTime <= list[j].offsetTime
  }

  // Number of triggers up front before offset
  function Before(list: seq<Trigger>, offset: nat): (k: nat)
    ensures k <= |list| && (k < |list| ==> offset <= list[k].offsetTime)
    ensures forall j :: 0 <= j < k ==> list[j].offsetTime < offset
  {
    if list == [] || offset <= list[0].offsetTime then 0 else 1 + Before(list[1..], offset)
  }

  // A new trigger goes before those of its own offset, though never before such a head
  function SortPlace(list: seq<Trigger>, offset: nat): nat {
    if list == [] || offset < list[0].offsetTime then 0 else 1 + Before(list[1..], offset)
  }

  lemma {:induction false} SortsIn(list: seq<Trigger>, t: Trigger, r: seq<Trigger>)
    requires Sorted(list) && InsertsAt(list, t, SortPlace(list, t.offsetTime), r)
    ensures Sorted(r)
  {
    var k := SortPlace(list, t.offsetTime);
    forall i, j | Pair(i, j) && 0 <= i < j < |r| ensures r[i].offsetTime <= r[j].offsetTime {
      assert i != k && j != k ==> Pair(if i < k then i else i - 1, if j < k then j else j - 1);
      assert j == k && 0 < i ==> r[i] == list[1..][i - 1];
      assert i == k && 0 < k ==> list[k] == list[1..][k - 1] && Pair(k, j - 1);
      assert i == k && k == 0 ==> Pair(0, j - 1);
    }
  }

  // The last trigger in a row with the offset of trigger i
  function RunEnd(list: seq<Trigger>, i: nat): (e: nat)
    requires i < |list|
    ensures i <= e < |list| && list[e].offsetTime == list[i].offsetTime
    ensures e + 1 < |list| ==> list[e + 1].offsetTime != list[i].offsetTime
    decreases |list| - i
  {
    if i + 1 < |list| && list[i].offsetTime == list[i + 1].offsetTime then RunEnd(list, i + 1) else i
  }

  lemma {:induction false} RunOffsets(list: seq<Trigger>, i: nat)
    requires i < |list|
    ensures forall k :: i <= k <= RunEnd(list, i) ==> list[k].offsetTime == list[i].offsetTime
    decreases |list| - i
  {
    if i < RunEnd(list, i) {
      RunOffsets(list, i + 1);
    }
  }

  // The triggers in a row behind trigger i
  function RowBehind(list: seq<Trigger>, i: nat): seq<Trigger>
    requires i < |list|
    decreases |list| - i
  {
    if i + 1 < |list| && list[i].offsetTime == list[i + 1].offsetTime then [list[i + 1]] + RowBehind(list, i + 1)
      else []
  }

  lemma {:induction false} RowIsSlice(list: seq<Trigger>, i: nat)
    requires i < |list|
    ensures [list[i]] + RowBehind(list, i) == list[i..RunEnd(list, i) + 1] &&
      |RowBehind(list, i)| == RunEnd(list, i) - i
    decreases |list| - i
  {
    if i < RunEnd(list, i) {
      RowIsSlice(list, i + 1);
    }
  }

  class PeriodicScheduleImpl {
    var triggers: Trigger?
    var activeTrigger: Trigger?
    var startTimeOffPeriod: int
    var period: nat
    var pushed: seq<Trigger>
    ghost var list: seq<Trigger>
    // Index of the active trigger, or -1
    ghost var active: int

    ghost predicate Valid()
      reads this, list`next
    {
      && NoDup(list) && Sorted(list) && -1 <= active < |list|
      && triggers == (if |list| == 0 then null else list[0])
      && activeTrigger == (if active < 0 then null else list[active])
      && forall i {:trigger list[i].next} :: 0 <= i < |list| ==>
        list[i].next == if i + 1 < |list| then list[i + 1] else null
    }

    constructor (startTime: int, period: nat)
      ensures Valid() && list == [] && active == -1 && pushed == [] && startTimeOffPeriod == startTime &&
        this.period == period
    {
      triggers, activeTrigger, startTimeOffPeriod, this.period := null, null, startTime, period;
      list, active, pushed := [], -1, [];
    }

    method SortIn(trigger: Trigger)
      requires Valid() && trigger !in list
      modifies `triggers, `list, `active, trigger`next, list`next
      ensures Valid() && InsertsAt(old(list), trigger, SortPlace(old(list), trigger.offsetTime), list)
      ensures activeTrigger == old(activeTrigger)
    {
      ghost var k := SortPlace(list, trigger.offsetTime);
      if triggers == null {
        Link(null, trigger, 0);
      } else if trigger.offsetTime < triggers.offsetTime {
        Link(null, trigger, 0);
      } else {
        var prev := triggers;
        ghost var i := 0;
        while prev.next != null && prev.next.offsetTime < trigger.offsetTime
          invariant 0 <= i < k && prev == list[i]
          decreases |list| - i
        {
          assert prev.next == list[1..][i];
          prev := prev.next;
          i := i + 1;
        }
        assert i + 1 == k;
        Link(prev, trigger, k);
      }
    }

    // Hang trigger behind prev, or at the head
    method Link(prev: Trigger?, trigger: Trigger, ghost k: nat)
      requires Valid() && trigger !in list && k == SortPlace(list, trigger.offsetTime)
      requires if k == 0 then prev == null else k <= |list| && prev == list[k - 1]
      modifies `triggers, `list, `active, trigger`next, list`next
      ensures Valid() && InsertsAt(old(list), trigger, k, list)
    {
      ghost var q := list;
      list := Splice(q, trigger, k);
      SortsIn(q, trigger, list);
      NoDupInserted(q, trigger, k, list);
      active := if k <= active then active + 1 else active;
      if prev == null {
        trigger.next := triggers;
        triggers := trigger;
      } else {
        NoDupFrom(q, k - 1);
        trigger.next := prev.next;
        prev.next := trigger;
      }
    }

    method PushActive()
      requires activeTrigger != null
      modifies `pushed
      ensures pushed == old(pushed) + [activeTrigger]
    {
      pushed := pushed + [activeTrigger];
    }

    method MoveOn()
      requires Valid() && 0 <= active && activeTrigger.next != null
      modifies `activeTrigger, `active
      ensures Valid() && active == old(active) + 1
    {
      activeTrigger := activeTrigger.next;
      active := active + 1;
    }

    method PushTriggers()
      requires Valid() && 0 <= active
      modifies `activeTrigger, `pushed, `active
      ensures Valid() && active == RunEnd(list, old(active)) && pushed == old(pushed) + list[old(active)..active + 1]
    {
      ghost var first, last := active, active + |RowBehind(list, active)|;
      ghost var all := pushed + ([activeTrigger] + RowBehind(list, active));
      PushActive();
      while activeTrigger.next != null && activeTrigger.offsetTime == activeTrigger.next.offsetTime
        invariant Valid() && first <= active && active + |RowBehind(list, active)| == last
        invariant pushed + RowBehind(list, active) == all
        decreases |list| - active
      {
        MoveOn();
        PushActive();
      }
      RowIsSlice(list, first);
    }

    method StepToNextTriggerOffset() returns (nextAbsoluteStartTime: int)
      requires Valid() && list != []
      modifies `activeTrigger, `active, `startTimeOffPeriod
      ensures Valid()
      ensures Player(active, startTimeOffPeriod) == Advance(old(Player(active, startTimeOffPeriod)), |list|, period)
      ensures nextAbsoluteStartTime == startTimeOffPeriod + list[active].offsetTime
    {
      if activeTrigger != null {
        activeTrigger := activeTrigger.next;
        active := if active + 1 < |list| then active + 1 else -1;
      }
      if activeTrigger == null {
        activeTrigger := triggers;
        active := 0;
        startTimeOffPeriod := startTimeOffPeriod + period;
      }
      nextAbsoluteStartTime := startTimeOffPeriod + activeTrigger.offsetTime;
    }
  }

  // ---- playing a schedule

  datatype Player = Player(active: int, start: int)

  datatype Push = Push(time: int, trigger: Trigger)

  function Advance(p: Player, n: nat, period: nat): Player {
    if 0 <= p.active && p.active + 1 < n then p.(active := p.active + 1) else Player(0, p.start + period)
  }

  // Step to the next offset, then push all triggers there
  function Round(list: seq<Trigger>, period: nat, p: Player): (r: Player)
    requires list != [] && -1 <= p.active < |list|
    ensures 0 <= r.active < |list|
  {
    var q := Advance(p, |list|, period);
    q.(active := RunEnd(list, q.active))
  }

  // The time that the step of a round returns
  function RoundTime(list: seq<Trigger>, period: nat, p: Player): int
    requires list != [] && -1 <= p.active < |list|
  {
    var q := Advance(p, |list|, period);
    q.start + list[q.active].offsetTime
  }

  function Rounds(list: seq<Trigger>, period: nat, p: Player, m: nat): (r: Player)
    requires list != [] && -1 <= p.active < |list|
    ensures -1 <= r.active < |list|
  {
    if m == 0 then p else Round(list, period, Rounds(list, period, p, m - 1))
  }

  // Triggers from index i up to e pushed at a time
  function Pushes(list: seq<Trigger>, time: int, i: nat, e: nat): seq<Push>
    requires i <= e <= |list|
  {
    seq(e - i, k requires 0 <= k < e - i => Push(time, list[i + k]))
  }

  // All pushes of m rounds
  function Played(list: seq<Trigger>, period: nat, p: Player, m: nat): seq<Push>
    requires list != [] && -1 <= p.active < |list|
  {
    if m == 0 then []
    else
      var q := Rounds(list, period, p, m - 1);
      Played(list, period, p, m - 1) +
      Pushes(list, RoundTime(list, period, q), Advance(q, |list|, period).active, Round(list, period, q).active + 1)
  }

  // Each trigger once in each of j periods from base on, and the first i triggers of the next period
  function Expected(list: seq<Trigger>, period: nat, base: int, j: nat, i: nat): seq<Push>
    requires i <= |list|
    decreases j, i
  {
    if 0 < i then Expected(list, period, base, j, i - 1) +
      [Push(base + j * period + list[i - 1].offsetTime, list[i - 1])]
    else if 0 < j then Expected(list, period, base, j - 1, |list|)
    else []
  }
}

/** A schedule pushes every trigger exactly once per period, on time. */
module PeriodicScheduleRuns {
  import opened Sequences
  import opened PeriodicSchedules

  // The new trigger comes behind a head with its offset, and before all others with it
  lemma {:induction false} EqualOffsets(list: seq<Trigger>, offset: nat, i: nat)
    requires Sorted(list) && i < |list| && list[i].offsetTime == offset
    ensures i < SortPlace(list, offset) <==> i == 0
  {
    if 0 < i {
      assert list[i] == list[1..][i - 1] && Pair(0, i);
    }
  }

  // The push of trigger b in period a, counted from base on
  function At(list: seq<Trigger>, period: nat, base: int, a: nat, b: nat): Push
    requires b < |list|
  {
    Push(base + a * period + list[b].offsetTime, list[b])
  }

  // Period a, trigger b comes before period j, trigger i
  predicate Prior(a: nat, b: nat, j: nat, i: nat) {
    a < j || (a == j && b < i)
  }

  // All offsets are inside the period
  ghost predicate Fits(list: seq<Trigger>, period: nat) {
    list != [] && Sorted(list) && NoDup(list) && forall k :: 0 <= k < |list| ==> list[k].offsetTime < period
  }

  lemma {:induction false} PeriodsApart(period: nat, a: nat, b: nat)
    requires a < b
    ensures a * period + period <= b * period
  {
    assert b * period == a * period + period + (b - a - 1) * period;
  }

  // Order of pushes is order of time
  lemma {:induction false} TimeOrder(list: seq<Trigger>, period: nat, base: int, a: nat, b: nat, j: nat, i: nat)
    requires Fits(list, period) && b < |list| && 0 < i <= |list|
    requires i < |list| ==> list[i - 1].offsetTime < list[i].offsetTime
    ensures Prior(a, b, j, i) <==> At(list, period, base, a, b).time <= At(list, period, base, j, i - 1).time
  {
    if a < j { PeriodsApart(period, a, j); }
    if j < a { PeriodsApart(period, j, a); }
    assert Pair(b, i - 1) && Pair(i, b);
  }

  lemma {:induction false} ExpectedRun(list: seq<Trigger>, period: nat, base: int, j: nat, i: nat, e: nat)
    requires i <= e < |list| && forall k :: i <= k <= e ==> list[k].offsetTime == list[i].offsetTime
    ensures Expected(list, period, base, j, e + 1) ==
            Expected(list, period, base, j, i) + Pushes(list, base + j * period + list[i].offsetTime, i, e + 1)
    decreases e
  {
    var time := base + j * period + list[i].offsetTime;
    if i < e {
      ExpectedRun(list, period, base, j, i, e - 1);
      assert Pushes(list, time, i, e + 1) == Pushes(list, time, i, e) + [Push(time, list[e])];
    } else {
      assert Pushes(list, time, i, e + 1) == [Push(time, list[e])];
    }
  }

  // The next period and trigger after trigger i - 1 of period j
  lemma {:induction false} NextTrigger(list: seq<Trigger>, period: nat, base: int, j: nat, i: nat)
    returns (k: nat, first: nat)
    requires 0 < i <= |list|
    ensures first < |list| &&
      Advance(Player(i - 1, base + j * period), |list|, period) == Player(first, base + k * period)
    ensures Expected(list, period, base, k, first) == Expected(list, period, base, j, i)
    ensures if i < |list| then k == j && first == i else k == j + 1 && first == 0
  {
    k, first := j, i;
    if i == |list| {
      assert j * period + period == (j + 1) * period;
      assert Expected(list, period, base, j + 1, 0) == Expected(list, period, base, j, |list|);
      k, first := j + 1, 0;
    }
  }

  // The state of a fresh schedule that starts its first period at base
  function Start(period: nat, base: int): Player {
    Player(-1, base - period)
  }

  // After m rounds the first i triggers of period j have been pushed
  ghost predicate InOrder(list: seq<Trigger>, period: nat, base: int, m: nat, j: nat, i: nat)
    requires list != []
  {
    && 0 < i <= |list| && (i < |list| ==> list[i - 1].offsetTime < list[i].offsetTime)
    && Rounds(list, period, Start(period, base), m) == Player(i - 1, base + j * period)
    && Played(list, period, Start(period, base), m) == Expected(list, period, base, j, i)
  }

  lemma {:induction false} OneRound(list: seq<Trigger>, period: nat, base: int, m: nat, j: nat, first: nat)
    returns (i: nat)
    requires Fits(list, period) && first < |list|
    requires Advance(Rounds(list, period, Start(period, base), m), |list|, period) == Player(first, base + j * period)
    requires Played(list, period, Start(period, base), m) == Expected(list, period, base, j, first)
    ensures InOrder(list, period, base, m + 1, j, i) && first < i
    ensures RoundTime(list, period, Rounds(list, period, Start(period, base), m)) ==
      At(list, period, base, j, i - 1).time
  {
    var e := RunEnd(list, first);
    RunOffsets(list, first);
    ExpectedRun(list, period, base, j, first, e);
    i := e + 1;
    assert i < |list| ==> Pair(e, i);
  }

  lemma {:induction false} PlaysInOrder(list: seq<Trigger>, period: nat, base: int, m: nat) returns (j: nat, i: nat)
    requires Fits(list, period) && 0 < m
    ensures InOrder(list, period, base, m, j, i)
    ensures RoundTime(list, period, Rounds(list, period, Start(period, base), m - 1)) ==
      At(list, period, base, j, i - 1).time
  {
    var first := 0;
    j := 0;
    if 1 < m {
      j, i := PlaysInOrder(list, period, base, m - 1);
      j, first := NextTrigger(list, period, base, j, i);
    }
    i := OneRound(list, period, base, m - 1, j, first);
  }

  // The times of successive rounds increase
  lemma {:induction false} TimesIncrease(list: seq<Trigger>, period: nat, base: int, m: nat)
    requires Fits(list, period)
    ensures var p := Start(period, base);
      RoundTime(list, period, Rounds(list, period, p, m)) < RoundTime(list, period, Rounds(list, period, p, m + 1))
  {
    var j, i := PlaysInOrder(list, period, base, m + 1);
    var k, first := NextTrigger(list, period, base, j, i);
    PeriodsApart(period, j, j + 1);
  }

  lemma {:induction false} ExpectedMembers(list: seq<Trigger>, period: nat, base: int, j: nat, i: nat, x: Push)
    requires i <= |list| && x in Expected(list, period, base, j, i)
    ensures exists a: nat, b: nat :: b < |list| && Prior(a, b, j, i) && x == At(list, period, base, a, b)
    decreases j, i
  {
    if 0 < i {
      if x == At(list, period, base, j, i - 1) {
        assert Prior(j, i - 1, j, i);
      } else {
        ExpectedMembers(list, period, base, j, i - 1, x);
        var a: nat, b: nat :| b < |list| && Prior(a, b, j, i - 1) && x == At(list, period, base, a, b);
        assert Prior(a, b, j, i);
      }
    } else if 0 < j {
      ExpectedMembers(list, period, base, j - 1, |list|, x);
      var a: nat, b: nat :| b < |list| && Prior(a, b, j - 1, |list|) && x == At(list, period, base, a, b);
      assert Prior(a, b, j, i);
    }
  }

  lemma {:induction false} ExpectedHas(list: seq<Trigger>, period: nat, base: int, j: nat, i: nat, a: nat, b: nat)
    requires i <= |list| && b < |list| && Prior(a, b, j, i)
    ensures At(list, period, base, a, b) in Expected(list, period, base, j, i)
    decreases j, i
  {
    if 0 < i {
      if !(a == j && b == i - 1) {
        ExpectedHas(list, period, base, j, i - 1, a, b);
      }
    } else {
      ExpectedHas(list, period, base, j - 1, |list|, a, b);
    }
  }

  lemma {:induction false} ExpectedDistinct(list: seq<Trigger>, period: nat, base: int, j: nat, i: nat)
    requires Fits(list, period) && i <= |list|
    ensures NoDup(Expected(list, period, base, j, i))
    decreases j, i
  {
    if 0 < i {
      var x, q := At(list, period, base, j, i - 1), Expected(list, period, base, j, i - 1);
      ExpectedDistinct(list, period, base, j, i - 1);
      if x in q {
        ExpectedMembers(list, period, base, j, i - 1, x);
        var a: nat, b: nat :| b < |list| && Prior(a, b, j, i - 1) && x == At(list, period, base, a, b);
        NoDupFrom(list, b);
        PeriodsApart(period, a, j);
        assert false;
      }
      NoDupAppended(q, x);
    } else if 0 < j {
      ExpectedDistinct(list, period, base, j - 1, |list|);
    }
  }

  ghost predicate IsPush(list: seq<Trigger>, period: nat, base: int, x: Push) {
    exists a: nat, b: nat :: b < |list| && x == At(list, period, base, a, b)
  }

  // After m rounds trigger b has been pushed for period a exactly once if that was due by then,
  // and not otherwise; nothing else has been pushed
  lemma {:induction false} OncePerPeriod(list: seq<Trigger>, period: nat, base: int, m: nat)
    requires Fits(list, period) && 0 < m
    ensures var p := Start(period, base);
      var last, played := RoundTime(list, period, Rounds(list, period, p, m - 1)), Played(list, period, p, m);
      && NoDup(played)
      && (forall a: nat, b: nat :: b < |list| ==>
            (At(list, period, base, a, b) in played <==> At(list, period, base, a, b).time <= last))
      && (forall x :: x in played ==> IsPush(list, period, base, x))
  {
    var j, i := PlaysInOrder(list, period, base, m);
    ExpectedDistinct(list, period, base, j, i);
    forall a: nat, b: nat | b < |list|
      ensures At(list, period, base, a, b) in Expected(list, period, base, j, i) <==>
              At(list, period, base, a, b).time <= At(list, period, base, j, i - 1).time
    {
      DueIsExpected(list, period, base, j, i, a, b);
    }
    forall x | x in Expected(list, period, base, j, i) ensures IsPush(list, period, base, x) {
      ExpectedMembers(list, period, base, j, i, x);
    }
  }

  lemma {:induction false} DueIsExpected(list: seq<Trigger>, period: nat, base: int, j: nat, i: nat, a: nat, b: nat)
    requires Fits(list, period) && b < |list| && 0 < i <= |list|
    requires i < |list| ==> list[i - 1].offsetTime < list[i].offsetTime
    ensures var x := At(list, period, base, a, b);
      x in Expected(list, period, base, j, i) <==> x.time <= At(list, period, base, j, i - 1).time
  {
    TimeOrder(list, period, base, a, b, j, i);
    var x := At(list, period, base, a, b);
    if Prior(a, b, j, i) {
      ExpectedHas(list, period, base, j, i, a, b);
    } else if x in Expected(list, period, base, j, i) {
      ExpectedMembers(list, period, base, j, i, x);
      var a': nat, b': nat :| b' < |list| && Prior(a', b', j, i) && x == At(list, period, base, a', b');
      TimeOrder(list, period, base, a', b', j, i);
    }
  }
}

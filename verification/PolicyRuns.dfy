/** Both scheduling policies by priority answer every sequence of calls in the same way. */
module PolicyRuns {
  import opened Sequences
  import opened PriorityQueues

  datatype Call<T> = Queue(task: T) | NextTask

  // The result of queue tells whether the run queue was empty before
  datatype Answer<T> = WasEmpty(empty: bool) | Task(task: Option<T>)

  function ListAnswers<T>(q: seq<T>, calls: seq<Call<T>>, key: T -> nat): seq<Answer<T>>
    decreases |calls|
  {
    if calls == [] then []
    else match calls[0]
      case Queue(t) => [WasEmpty(|q| == 0)] + ListAnswers(Insert(q, t, key), calls[1..], key)
      case NextTask =>
        if |q| == 0 then [Answer.Task(None)] + ListAnswers(q, calls[1..], key)
        else [Answer.Task(Some(q[0]))] + ListAnswers(q[1..], calls[1..], key)
  }

  function SlotAnswers<T>(slots: seq<seq<T>>, calls: seq<Call<T>>, key: T -> nat): seq<Answer<T>>
    requires forall c :: c in calls && c.Queue? ==> key(c.task) < |slots|
    decreases |calls|
  {
    if calls == [] then []
    else
      var p := Highest(slots);
      match calls[0]
      case Queue(t) => [WasEmpty(p == |slots|)] + SlotAnswers(Append(slots, t, key), calls[1..], key)
      case NextTask =>
        [Answer.Task(if p == |slots| then None else Some(slots[p][0]))] +
          SlotAnswers(TakeHighest(slots), calls[1..], key)
  }

  // The reference: the earliest of the most urgent tasks that have arrived
  function ArrivalAnswers<T>(arrived: seq<T>, calls: seq<Call<T>>, key: T -> nat): seq<Answer<T>>
    decreases |calls|
  {
    if calls == [] then []
    else match calls[0]
      case Queue(t) => [WasEmpty(|arrived| == 0)] + ArrivalAnswers(arrived + [t], calls[1..], key)
      case NextTask =>
        if |arrived| == 0 then [Answer.Task(None)] + ArrivalAnswers(arrived, calls[1..], key)
        else
          var i := FirstIndex(arrived, key);
          [Answer.Task(Some(arrived[i]))] + ArrivalAnswers(Without(arrived, i), calls[1..], key)
  }

  lemma {:induction false} SlotsAnswerAsList<T>(slots: seq<seq<T>>, calls: seq<Call<T>>, key: T -> nat)
    requires Keyed(slots, key) && forall c :: c in calls && c.Queue? ==> key(c.task) < |slots|
    ensures SlotAnswers(slots, calls, key) == ListAnswers(Flatten(slots), calls, key)
    decreases |calls|
  {
    if calls != [] {
      FlattenTakes(slots);
      match calls[0]
      case Queue(t) =>
        AppendKeeps(slots, t, key);
        FlattenInserts(slots, t, key);
        SlotsAnswerAsList(Append(slots, t, key), calls[1..], key);
      case NextTask =>
        TakesKeyed(slots, key);
        assert Highest(slots) < |slots| ==> Flatten(slots)[1..] == Flatten(TakeHighest(slots));
        SlotsAnswerAsList(TakeHighest(slots), calls[1..], key);
    }
  }

  lemma {:induction false} ListAnswersByArrival<T>(arrived: seq<T>, calls: seq<Call<T>>, key: T -> nat)
    ensures ListAnswers(Sorted(arrived, key), calls, key) == ArrivalAnswers(arrived, calls, key)
    decreases |calls|
  {
    if calls != [] {
      SortedSize(arrived, key);
      match calls[0]
      case Queue(t) =>
        SortedAppend(arrived, t, key);
        ListAnswersByArrival(arrived + [t], calls[1..], key);
      case NextTask =>
        if arrived == [] {
          ListAnswersByArrival(arrived, calls[1..], key);
        } else {
          var i := FirstIndex(arrived, key);
          SortedTakes(arrived, i, key);
          ListAnswersByArrival(Without(arrived, i), calls[1..], key);
        }
    }
  }

  lemma {:induction false} SortedSize<T>(q: seq<T>, key: T -> nat)
    ensures |Sorted(q, key)| == |q|
  {
    if q != [] {
      SortedSize(q[..|q| - 1], key);
    }
  }

  lemma {:induction false} NothingQueued<T>(n: nat)
    ensures Flatten<T>(NoTasks<T>(n)) == []
  {
    if 0 < n {
      assert NoTasks<T>(n)[..n - 1] == NoTasks<T>(n - 1);
      NothingQueued<T>(n - 1);
    }
  }

  // No task is queued while it is in the list, as both linked structures demand
  predicate NeverTwice<T(==)>(q: seq<T>, calls: seq<Call<T>>, key: T -> nat)
    decreases |calls|
  {
    if calls == [] then true
    else match calls[0]
      case Queue(t) => t !in q && NeverTwice(Insert(q, t, key), calls[1..], key)
      case NextTask => NeverTwice(if |q| == 0 then q else q[1..], calls[1..], key)
  }

  // Slots, sorted list and reference agree on every sequence of calls when the priorities fit the slots
  lemma {:induction false} PoliciesAgree<T>(calls: seq<Call<T>>, prio: T -> nat, n: nat)
    requires 0 < n && NeverTwice([], calls, Clamp(prio, n))
    ensures var key := Clamp(prio, n);
      SlotAnswers(NoTasks<T>(n), calls, key) == ListAnswers([], calls, key) == ArrivalAnswers([], calls, key)
  {
    NothingQueued<T>(n);
    SlotsAnswerAsList(NoTasks<T>(n), calls, Clamp(prio, n));
    ListAnswersByArrival([], calls, Clamp(prio, n));
  }

  // ---- and exactly when they do so without limiting the priorities first

  ghost predicate OnlyOf<T>(calls: seq<Call<T>>, tasks: set<T>) {
    forall c :: c in calls && c.Queue? ==> c.task in tasks
  }

  // No task is queued while it is in one of the two structures
  predicate Proper<T(==)>(calls: seq<Call<T>>, prio: T -> nat, n: nat)
    requires 0 < n
  {
    NeverTwice([], calls, prio) && NeverTwice([], calls, Clamp(prio, n))
  }

  ghost predicate AlwaysAgree<T(!new)>(prio: T -> nat, n: nat, tasks: set<T>)
    requires 0 < n
  {
    forall calls {:trigger OnlyOf(calls, tasks)} :: OnlyOf(calls, tasks) && Proper(calls, prio, n) ==>
      SlotAnswers(NoTasks<T>(n), calls, Clamp(prio, n)) == ListAnswers([], calls, prio)
  }

  // Two priorities at or beyond the last slot are told apart by the list only
  ghost predicate ToldApart<T>(prio: T -> nat, n: nat, tasks: set<T>) {
    forall t, u :: t in tasks && u in tasks && prio(t) < prio(u) ==> prio(t) + 1 < n
  }

  lemma {:induction false} SamePlace<T>(q: seq<T>, t: T, a: T -> nat, b: T -> nat)
    requires forall x :: x in q ==> (a(t) <= a(x) <==> b(t) <= b(x))
    ensures Insert(q, t, a) == Insert(q, t, b)
  {
    var k := Place(q, a(t), a);
    assert forall j :: 0 <= j < k ==> q[j] in q;
    assert k < |q| ==> q[k] in q;
    assert Place(q, b(t), b) == k;
  }

  lemma {:induction false} SameOrderSameAnswers<T>(q: seq<T>, calls: seq<Call<T>>, a: T -> nat, b: T -> nat,
                                                   tasks: set<T>)
    requires OnlyOf(calls, tasks) && forall x :: x in q ==> x in tasks
    requires forall t, u :: t in tasks && u in tasks ==> (a(t) <= a(u) <==> b(t) <= b(u))
    ensures ListAnswers(q, calls, a) == ListAnswers(q, calls, b)
    decreases |calls|
  {
    if calls != [] {
      assert OnlyOf(calls[1..], tasks);
      match calls[0]
      case Queue(t) =>
        assert t in tasks;
        SamePlace(q, t, a, b);
        SameOrderSameAnswers(Insert(q, t, a), calls[1..], a, b, tasks);
      case NextTask =>
        SameOrderSameAnswers(if |q| == 0 then q else q[1..], calls[1..], a, b, tasks);
    }
  }

  lemma {:induction false} AgreeExactlyWhen<T(!new)>(prio: T -> nat, n: nat, tasks: set<T>)
    requires 0 < n
    ensures AlwaysAgree(prio, n, tasks) <==> ToldApart(prio, n, tasks)
  {
    var key := Clamp(prio, n);
    if ToldApart(prio, n, tasks) {
      forall calls: seq<Call<T>> | OnlyOf(calls, tasks) && Proper(calls, prio, n)
        ensures SlotAnswers(NoTasks<T>(n), calls, key) == ListAnswers([], calls, prio)
      {
        PoliciesAgree(calls, prio, n);
        SameOrderSameAnswers([], calls, key, prio, tasks);
      }
    } else {
      var t, u :| t in tasks && u in tasks && prio(t) < prio(u) && n <= prio(t) + 1;
      Disagree(t, u, prio, n);
      assert OnlyOf([Queue(t), Queue(u), NextTask], tasks);
      TwoTasks(t, u, key);
      TwoTasks(t, u, prio);
    }
  }

  lemma {:induction false} TwoTasks<T>(t: T, u: T, key: T -> nat)
    requires t != u
    ensures NeverTwice([], [Queue(t), Queue(u), NextTask], key)
  {
    var calls := [Queue(t), Queue(u), NextTask];
    var two := Insert([t], u, key);
    assert Insert([], t, key) == [t];
    assert calls[1..] == [Queue(u), NextTask] && calls[1..][1..] == [NextTask] && calls[1..][1..][1..] == [];
    assert NeverTwice(two, calls[1..][1..], key);
    assert NeverTwice([t], calls[1..], key);
  }

  lemma {:induction false} Disagree<T>(t: T, u: T, prio: T -> nat, n: nat)
    requires 0 < n <= prio(t) + 1 && prio(t) < prio(u)
    ensures SlotAnswers(NoTasks<T>(n), [Queue(t), Queue(u), NextTask], Clamp(prio, n)) !=
            ListAnswers([], [Queue(t), Queue(u), NextTask], prio)
  {
    var key := Clamp(prio, n);
    TwoTasks(t, u, key);
    PoliciesAgree([Queue(t), Queue(u), NextTask], prio, n);
    ThreeCalls(t, u, key);
    ThreeCalls(t, u, prio);
  }

  // The answer to the third call is the first task unless the second is more urgent
  lemma {:induction false} ThreeCalls<T>(t: T, u: T, key: T -> nat)
    ensures ListAnswers([], [Queue(t), Queue(u), NextTask], key) ==
            [WasEmpty(true), WasEmpty(false), Answer.Task(Some(if key(t) < key(u) then u else t))]
  {
    var calls := [Queue(t), Queue(u), NextTask];
    var two := if key(t) < key(u) then [u, t] else [t, u];
    assert Insert([], t, key) == [t];
    assert Insert([t], u, key) == two by {
      assert Place([t], key(u), key) == if key(t) < key(u) then 0 else 1;
    }
    assert calls[1..] == [Queue(u), NextTask] && calls[1..][1..] == [NextTask] && calls[1..][1..][1..] == [];
    assert ListAnswers(two, calls[1..][1..], key) == [Answer.Task(Some(two[0]))];
    assert ListAnswers([t], calls[1..], key) == [WasEmpty(false), Answer.Task(Some(two[0]))];
  }
}

/** A run queue by priorities as one sorted list, as FIFO slots, and as what was queued in order of arrival. */
module PriorityQueues {
  import opened Sequences

  // Where an element of priority p goes: behind all elements up front that are not less urgent
  function Place<T>(q: seq<T>, p: nat, key: T -> nat): (k: nat)
    ensures k <= |q| && (k < |q| ==> key(q[k]) < p)
    ensures forall j :: 0 <= j < k ==> p <= key(q[j])
  {
    if q == [] || key(q[0]) < p then 0 else 1 + Place(q[1..], p, key)
  }

  function Insert<T>(q: seq<T>, t: T, key: T -> nat): seq<T> {
    var k := Place(q, key(t), key);
    q[..k] + [t] + q[k..]
  }

  // The slots from the most urgent one down
  function Flatten<T>(slots: seq<seq<T>>): seq<T> {
    if slots == [] then [] else slots[|slots| - 1] + Flatten(slots[..|slots| - 1])
  }

  function NoTasks<T>(n: nat): seq<seq<T>> {
    seq(n, _ => [])
  }

  // Every slot holds the elements of its priority
  ghost predicate Keyed<T>(slots: seq<seq<T>>, key: T -> nat) {
    forall p, k :: 0 <= p < |slots| && 0 <= k < |slots[p]| ==> key(slots[p][k]) == p
  }

  function Append<T>(slots: seq<seq<T>>, t: T, key: T -> nat): seq<seq<T>>
    requires key(t) < |slots|
  {
    slots[key(t) := slots[key(t)] + [t]]
  }

  // More urgent elements than there are slots share the last one
  function Clamp<T>(prio: T -> nat, n: nat): T -> nat
    requires 0 < n
  {
    t => if prio(t) < n then prio(t) else n - 1
  }

  // The most urgent slot that is not empty, or the number of slots
  function Highest<T>(slots: seq<seq<T>>): (p: nat)
    ensures p <= |slots| && (p < |slots| ==> slots[p] != [])
    ensures forall j :: 0 <= j < |slots| && (p == |slots| || p < j) ==> slots[j] == []
  {
    if slots == [] then 0
    else if slots[|slots| - 1] != [] then |slots| - 1
    else
      var p := Highest(slots[..|slots| - 1]);
      if p < |slots| - 1 then p else |slots|
  }

  function TakeHighest<T>(slots: seq<seq<T>>): seq<seq<T>> {
    var p := Highest(slots);
    if p < |slots| then slots[p := slots[p][1..]] else slots
  }

  // The earliest among the most urgent elements of q
  predicate First<T>(q: seq<T>, i: nat, key: T -> nat) {
    && i < |q|
    && (forall j :: 0 <= j < i ==> key(q[j]) < key(q[i]))
    && (forall j :: i < j < |q| ==> key(q[j]) <= key(q[i]))
  }

  function FirstIndex<T>(q: seq<T>, key: T -> nat): (i: nat)
    requires q != []
    ensures First(q, i, key)
  {
    var n := |q| - 1;
    if n == 0 then 0
    else
      var i := FirstIndex(q[..n], key);
      assert First(q[..n], i, key);
      if key(q[i]) < key(q[n]) then n else i
  }

  // What arrived in order q, sorted by priority and then by arrival
  function Sorted<T>(q: seq<T>, key: T -> nat): seq<T> {
    if q == [] then [] else Insert(Sorted(q[..|q| - 1], key), q[|q| - 1], key)
  }

  // ---- the slots are the sorted list

  lemma {:induction false} PlaceBehind<T>(a: seq<T>, b: seq<T>, p: nat, key: T -> nat)
    requires forall j :: 0 <= j < |a| ==> p <= key(a[j])
    ensures Place(a + b, p, key) == |a| + Place(b, p, key)
  {
    if a == [] {
      assert a + b == b;
    } else {
      PlaceBehind(a[1..], b, p, key);
      assert (a + b)[1..] == a[1..] + b;
    }
  }

  lemma {:induction false} InsertBehind<T>(a: seq<T>, b: seq<T>, t: T, key: T -> nat)
    requires forall j :: 0 <= j < |a| ==> key(t) <= key(a[j])
    ensures Insert(a + b, t, key) == a + Insert(b, t, key)
  {
    PlaceBehind(a, b, key(t), key);
    var k := Place(b, key(t), key);
    assert (a + b)[..|a| + k] == a + b[..k] && (a + b)[|a| + k..] == b[k..];
  }

  lemma {:induction false} InsertInFront<T>(q: seq<T>, t: T, key: T -> nat)
    requires forall j :: 0 <= j < |q| ==> key(q[j]) < key(t)
    ensures Insert(q, t, key) == [t] + q
  {
    assert Place(q, key(t), key) == 0;
  }

  lemma {:induction false} FlattenKeys<T>(slots: seq<seq<T>>, key: T -> nat)
    requires Keyed(slots, key)
    ensures forall j :: 0 <= j < |Flatten(slots)| ==> key(Flatten(slots)[j]) < |slots|
  {
    if slots != [] {
      var n := |slots| - 1;
      assert Keyed(slots[..n], key);
      FlattenKeys(slots[..n], key);
    }
  }

  lemma {:induction false} FlattenInserts<T>(slots: seq<seq<T>>, t: T, key: T -> nat)
    requires Keyed(slots, key) && key(t) < |slots|
    ensures Flatten(Append(slots, t, key)) == Insert(Flatten(slots), t, key)
  {
    var n, p := |slots| - 1, key(t);
    var low, top := slots[..n], slots[n];
    assert Keyed(low, key);
    InsertBehind(top, Flatten(low), t, key);
    if p == n {
      FlattenKeys(low, key);
      InsertInFront(Flatten(low), t, key);
      assert Append(slots, t, key)[..n] == low;
    } else {
      FlattenInserts(low, t, key);
      assert Append(slots, t, key)[..n] == Append(low, t, key);
    }
  }

  lemma {:induction false} FlattenTop<T>(slots: seq<seq<T>>)
    requires slots != [] && slots[|slots| - 1] != []
    ensures Highest(slots) == |slots| - 1
    ensures Flatten(TakeHighest(slots)) == slots[|slots| - 1][1..] + Flatten(slots[..|slots| - 1])
  {
    var n := |slots| - 1;
    assert TakeHighest(slots) == slots[n := slots[n][1..]];
    assert slots[n := slots[n][1..]][..n] == slots[..n];
  }

  lemma {:induction false} FlattenEmptyTop<T>(slots: seq<seq<T>>)
    requires slots != [] && slots[|slots| - 1] == []
    ensures var low := slots[..|slots| - 1];
      && Flatten(slots) == Flatten(low)
      && (Highest(low) == |low| <==> Highest(slots) == |slots|)
      && (Highest(low) < |low| ==>
        Highest(slots) == Highest(low) && Flatten(TakeHighest(slots)) == Flatten(TakeHighest(low)))
  {
    var n := |slots| - 1;
    var low := slots[..n];
    if Highest(low) < n {
      assert TakeHighest(slots) == TakeHighest(low) + [[]];
      assert (TakeHighest(low) + [[]])[..n] == TakeHighest(low);
    }
  }

  lemma {:induction false} FlattenTakes<T>(slots: seq<seq<T>>)
    ensures Highest(slots) == |slots| <==> Flatten(slots) == []
    ensures Highest(slots) < |slots| ==> Flatten(slots) == [slots[Highest(slots)][0]] + Flatten(TakeHighest(slots))
  {
    if slots != [] {
      var n := |slots| - 1;
      if slots[n] != [] {
        FlattenTop(slots);
      } else {
        FlattenEmptyTop(slots);
        FlattenTakes(slots[..n]);
      }
    }
  }

  lemma {:induction false} TakesKeyed<T>(slots: seq<seq<T>>, key: T -> nat)
    requires Keyed(slots, key)
    ensures Keyed(TakeHighest(slots), key)
  {
  }

  lemma {:induction false} AppendKeeps<T>(slots: seq<seq<T>>, t: T, key: T -> nat)
    requires Keyed(slots, key) && key(t) < |slots|
    ensures var slots', p, h := Append(slots, t, key), key(t), Highest(slots);
      Keyed(slots', key) && Highest(slots') == if h == |slots| || h < p then p else h
  {
    var slots', p := Append(slots, t, key), key(t);
    assert slots'[p] != [] && forall j :: 0 <= j < |slots| && j != p ==> slots'[j] == slots[j];
  }

  // ---- the sorted list holds the arrivals, the first among the most urgent ones up front

  lemma {:induction false} WithoutFront<T>(q: seq<T>, i: nat)
    requires i < |q|
    ensures i < |q| - 1 ==> Without(q, i) == Without(q[..|q| - 1], i) + [q[|q| - 1]]
    ensures i == |q| - 1 ==> Without(q, i) == q[..|q| - 1]
  {
  }

  lemma {:induction false} SortedAppend<T>(q: seq<T>, t: T, key: T -> nat)
    ensures Sorted(q + [t], key) == Insert(Sorted(q, key), t, key)
  {
    assert (q + [t])[..|q|] == q;
  }

  lemma {:induction false} FirstFront<T>(q: seq<T>, t: T, i: nat, key: T -> nat)
    requires First(q + [t], i, key)
    ensures i < |q| ==> First(q, i, key) && key(t) <= key(q[i])
    ensures i == |q| ==> forall j :: 0 <= j < |q| ==> key(q[j]) < key(t)
  {
    forall j | 0 <= j < |q| ensures (q + [t])[j] == q[j] {}
    assert (q + [t])[|q|] == t;
  }

  lemma {:induction false} SortedTakes<T>(q: seq<T>, i: nat, key: T -> nat)
    requires First(q, i, key)
    ensures Sorted(q, key) == [q[i]] + Sorted(Without(q, i), key)
  {
    var n := |q| - 1;
    var front, last := q[..n], q[n];
    assert q == front + [last];
    WithoutFront(q, i);
    FirstFront(front, last, i, key);
    SortedAppend(front, last, key);
    if i < n {
      SortedTakes(front, i, key);
      SortedTakesFront(front, last, i, key);
    } else {
      SortedKeys(front, key(last), key);
      InsertInFront(Sorted(front, key), last, key);
    }
  }

  lemma {:induction false} SortedTakesFront<T>(front: seq<T>, last: T, i: nat, key: T -> nat)
    requires i < |front| && key(last) <= key(front[i])
    requires Sorted(front, key) == [front[i]] + Sorted(Without(front, i), key)
    ensures Insert(Sorted(front, key), last, key) == [front[i]] + Sorted(Without(front, i) + [last], key)
  {
    var rest := Without(front, i);
    InsertBehind([front[i]], Sorted(rest, key), last, key);
    SortedAppend(rest, last, key);
  }

  lemma {:induction false} SortedKeys<T>(q: seq<T>, p: nat, key: T -> nat)
    requires forall j :: 0 <= j < |q| ==> key(q[j]) < p
    ensures |Sorted(q, key)| == |q|
    ensures forall j :: 0 <= j < |q| ==> key(Sorted(q, key)[j]) < p
  {
    if q != [] {
      SortedKeys(q[..|q| - 1], p, key);
    }
  }
}

/** The scheduling policies by priority as linked lists of tasks. */
module Policies {
  import opened Sequences
  import opened PriorityQueues

  // A task with the management data of its policy
  class Task {
    const priority: nat
    var next: Task?

    constructor (priority: nat)
      ensures this.priority == priority
    {
      this.priority := priority;
      next := null;
    }
  }

  function PriorityOf(t: Task): nat {
    t.priority
  }

  // The tasks of q hang together from head on
  ghost predicate Linked(head: Task?, q: seq<Task>)
    reads q`next
  {
    && NoDup(q)
    && head == (if |q| == 0 then null else q[0])
    && forall i {:trigger q[i].next} :: 0 <= i < |q| ==> q[i].next == if i + 1 < |q| then q[i + 1] else null
  }

  lemma {:induction false} InsertedAt<T>(q: seq<T>, t: T, key: T -> nat, r: seq<T>)
    requires InsertsAt(q, t, Place(q, key(t), key), r)
    ensures r == Insert(q, t, key)
  {
  }

  class SchedulePolicyPriority {
    var head: Task?
    ghost var queued: seq<Task>

    ghost predicate Valid()
      reads this, queued`next
    {
      Linked(head, queued)
    }

    constructor ()
      ensures Valid() && queued == []
    {
      head, queued := null, [];
    }

    // The last task that is not less urgent than task, and the one behind it
    method Search(task: Task) returns (previous: Task, next: Task?)
      requires Valid() && head != null && task.priority <= head.priority
      ensures var k := Place(queued, task.priority, PriorityOf);
        0 < k && previous == queued[k - 1] && next == if k < |queued| then queued[k] else null
    {
      previous := head;
      next := previous.next;
      ghost var i := 0;
      while next != null && task.priority <= next.priority
        invariant 0 <= i < |queued| && previous == queued[i] && next == queued[i].next
        invariant i < Place(queued, task.priority, PriorityOf)
        decreases |queued| - i
      {
        previous := next;
        next := next.next;
        i := i + 1;
      }
    }

    method LinkAtHead(task: Task)
      requires Valid() && task !in queued
      modifies this, task`next
      ensures Valid() && InsertsAt(old(queued), task, 0, queued)
    {
      ghost var q := queued;
      queued := Splice(q, task, 0);
      NoDupInserted(q, task, 0, queued);
      task.next := head;
      head := task;
    }

    method LinkBehind(previous: Task, next: Task?, task: Task, ghost k: nat)
      requires Valid() && task !in queued
      requires 0 < k <= |queued| && previous == queued[k - 1] && next == if k < |queued| then queued[k] else null
      modifies `queued, task`next, previous`next
      ensures Valid() && InsertsAt(old(queued), task, k, queued)
    {
      ghost var q := queued;
      queued := Splice(q, task, k);
      NoDupInserted(q, task, k, queued);
      NoDupFrom(q, k - 1);
      task.next := next;
      previous.next := task;
    }

    method Queue(task: Task) returns (isEmpty: bool)
      requires Valid() && task !in queued
      modifies this, task`next, queued`next
      ensures Valid() && queued == Insert(old(queued), task, PriorityOf)
      ensures isEmpty <==> old(queued) == []
    {
      ghost var q, k := queued, Place(queued, task.priority, PriorityOf);
      isEmpty := head == null;
      if head == null || task.priority > head.priority {
        LinkAtHead(task);
      } else {
        var previous, next := Search(task);
        LinkBehind(previous, next, task, k);
      }
      InsertedAt(q, task, PriorityOf, queued);
    }

    method NextTask() returns (next: Task?)
      requires Valid()
      modifies this
      ensures Valid()
      ensures if |old(queued)| == 0 then next == null && queued == []
        else next == old(queued)[0] && queued == old(queued)[1..]
    {
      next := head;
      if head != null {
        ghost var q := queued;
        head := head.next;
        queued := q[1..];
        assert RemovesAt(q, 0, queued);
        NoDupRemoved(q, 0, queued);
      }
    }
  }

  datatype FifoSlot = FifoSlot(head: Task?, tail: Task?)

  // Priorities beyond the last slot share it
  function SlotOf(t: Task, n: nat): nat
    requires 0 < n
  {
    if t.priority < n then t.priority else n - 1
  }

  ghost predicate InSlots(slots: seq<seq<Task>>, n: nat) {
    0 < n && forall p, k :: 0 <= p < |slots| && 0 <= k < |slots[p]| ==> SlotOf(slots[p][k], n) == p
  }

  lemma {:induction false} InSlotsKeyed(slots: seq<seq<Task>>, n: nat)
    requires InSlots(slots, n)
    ensures Keyed(slots, Clamp(PriorityOf, n))
  {
    forall p, k | 0 <= p < |slots| && 0 <= k < |slots[p]| ensures Clamp(PriorityOf, n)(slots[p][k]) == p {
      assert SlotOf(slots[p][k], n) == p;
      SlotOfClamps(slots[p][k], n);
    }
  }

  lemma {:induction false} SlotOfClamps(t: Task, n: nat)
    requires 0 < n
    ensures Clamp(PriorityOf, n)(t) == SlotOf(t, n)
  {
    assert PriorityOf(t) == t.priority;
  }

  // One more task in its slot
  lemma {:induction false} Appended(slots: seq<seq<Task>>, t: Task, n: nat)
    requires InSlots(slots, n) && |slots| == n
    ensures var p, h := SlotOf(t, n), Highest(slots);
      var slots' := slots[p := slots[p] + [t]];
      && InSlots(slots', n) && Highest(slots') == (if h == n || h < p then p else h)
      && slots' == Append(slots, t, Clamp(PriorityOf, n))
  {
    InSlotsKeyed(slots, n);
    SlotOfClamps(t, n);
    AppendKeeps(slots, t, Clamp(PriorityOf, n));
  }

  // Slots hold different tasks
  lemma {:induction false} SlotsDiffer(slots: seq<seq<Task>>, p: nat, n: nat)
    requires InSlots(slots, n) && p < |slots|
    ensures forall j :: 0 <= j < |slots| && j != p ==> forall t :: t in slots[p] ==> t !in slots[j]
  {
  }

  lemma {:induction false} Taken(slots: seq<seq<Task>>, n: nat)
    requires InSlots(slots, n)
    ensures InSlots(TakeHighest(slots), n)
  {
  }

  class SchedulePolicyPSlot {
    const prioritySlots: array<FifoSlot>
    var highestPriorSlot: nat
    const maxPrioritySlot: nat
    ghost var queued: seq<seq<Task>>
    ghost var tasks: set<Task>

    // Slot p links the tasks q
    ghost predicate Slot(p: nat, q: seq<Task>)
      reads prioritySlots, q`next
    {
      p < prioritySlots.Length && Linked(prioritySlots[p].head, q) && (q != [] ==> prioritySlots[p].tail == q[|q| - 1])
    }

    ghost predicate Slots()
      reads `queued, `tasks, prioritySlots, tasks`next
    {
      forall p :: 0 <= p < |queued| ==> (forall t :: t in queued[p] ==> t in tasks) && Slot(p, queued[p])
    }

    ghost predicate Valid()
      reads this, prioritySlots, tasks`next
    {
      && 0 < maxPrioritySlot == prioritySlots.Length == |queued|
      && Slots() && InSlots(queued, maxPrioritySlot)
      && highestPriorSlot == Highest(queued)
    }

    ghost predicate Queued(task: Task)
      reads `queued
    {
      exists p :: 0 <= p < |queued| && task in queued[p]
    }

    constructor (numberOfSlots: nat)
      requires 0 < numberOfSlots
      ensures Valid() && fresh(prioritySlots) && maxPrioritySlot == numberOfSlots &&
        queued == NoTasks<Task>(numberOfSlots)
    {
      prioritySlots := new FifoSlot[numberOfSlots](_ => FifoSlot(null, null));
      highestPriorSlot, maxPrioritySlot := numberOfSlots, numberOfSlots;
      queued, tasks := NoTasks<Task>(numberOfSlots), {};
    }

    // Append task to the list of slot p; no task of another slot is touched
    method LinkBehind(p: nat, task: Task)
      requires p < |queued| <= prioritySlots.Length && Slots() && !Queued(task)
      requires forall j :: 0 <= j < |queued| && j != p ==> forall t :: t in queued[p] ==> t !in queued[j]
      modifies `queued, `tasks, prioritySlots, task`next, queued[p]`next
      ensures Slots() && queued == old(queued)[p := old(queued)[p] + [task]] && tasks == old(tasks) + {task}
    {
      ghost var was, q := queued, queued[p];
      assert Slot(p, q);
      NoDupAppended(q, task);
      task.next := null;
      if prioritySlots[p].head == null {
        prioritySlots[p] := FifoSlot(task, task);
      } else {
        NoDupFrom(q, |q| - 1);
        prioritySlots[p].tail.next := task;
        prioritySlots[p] := prioritySlots[p].(tail := task);
      }
      queued, tasks := was[p := q + [task]], tasks + {task};
      forall j | 0 <= j < |queued| && j != p ensures Slot(j, queued[j]) {
        assert old(Slot(j, was[j]));
        assert task !in was[j] && (q != [] ==> q[|q| - 1] !in was[j]);
      }
      assert Slot(p, q + [task]);
    }

    method Queue(task: Task) returns (isEmpty: bool)
      requires Valid() && !Queued(task)
      modifies `queued, `tasks, `highestPriorSlot, prioritySlots, task`next, tasks`next
      ensures Valid() && queued == Append(old(queued), task, Clamp(PriorityOf, maxPrioritySlot))
      ensures isEmpty <==> Highest(old(queued)) == maxPrioritySlot
    {
      var priority := task.priority;
      if priority >= maxPrioritySlot {
        priority := maxPrioritySlot - 1;
      }
      isEmpty := highestPriorSlot == maxPrioritySlot;
      Appended(queued, task, maxPrioritySlot);
      if isEmpty || priority > highestPriorSlot {
        highestPriorSlot := priority;
      }
      SlotsDiffer(queued, priority, maxPrioritySlot);
      LinkBehind(priority, task);
    }

    // Take the head of slot p, which is not empty
    method Unlink(p: nat) returns (result: Task)
      requires p < |queued| <= prioritySlots.Length && Slots() && queued[p] != []
      modifies `queued, prioritySlots
      ensures result == old(queued)[p][0] && Slots() && queued == old(queued)[p := old(queued)[p][1..]]
    {
      ghost var was, q := queued, queued[p];
      assert Slot(p, q);
      assert RemovesAt(q, 0, q[1..]);
      NoDupRemoved(q, 0, q[1..]);
      result := prioritySlots[p].head;
      prioritySlots[p] := prioritySlots[p].(head := result.next);
      queued := was[p := q[1..]];
      forall j | 0 <= j < |queued| && j != p ensures Slot(j, queued[j]) {
        assert old(Slot(j, was[j]));
      }
      assert Slot(p, q[1..]);
    }

    // Move from an empty slot down to the next one with a task
    method Descend()
      requires Slots() && |queued| == prioritySlots.Length == maxPrioritySlot && highestPriorSlot < maxPrioritySlot
      requires forall j :: highestPriorSlot < j < |queued| ==> queued[j] == []
      modifies `highestPriorSlot
      ensures highestPriorSlot == Highest(queued)
    {
      while highestPriorSlot < maxPrioritySlot && prioritySlots[highestPriorSlot].head == null
        invariant highestPriorSlot <= maxPrioritySlot
        invariant forall j :: 0 <= j < |queued| && (highestPriorSlot == maxPrioritySlot || highestPriorSlot < j) ==>
          queued[j] == []
        decreases if highestPriorSlot < maxPrioritySlot then highestPriorSlot + 1 else 0
      {
        assert Slot(highestPriorSlot, queued[highestPriorSlot]);
        if highestPriorSlot == 0 {
          highestPriorSlot := maxPrioritySlot;
        } else {
          highestPriorSlot := highestPriorSlot - 1;
        }
      }
      assert highestPriorSlot < maxPrioritySlot ==> Slot(highestPriorSlot, queued[highestPriorSlot]);
    }

    // Clear the tail of an emptied slot
    method ClearTail(p: nat)
      requires Slots() && p < |queued| <= prioritySlots.Length && prioritySlots[p].head == null
      modifies prioritySlots
      ensures Slots()
    {
      assert Slot(p, queued[p]);
      prioritySlots[p] := prioritySlots[p].(tail := null);
      forall j | 0 <= j < |queued| ensures Slot(j, queued[j]) {
        assert old(Slot(j, queued[j]));
      }
    }

    // Take the head of the highest slot and find the next slot if it is empty then
    method TakeHead() returns (result: Task)
      requires Slots() && |queued| == prioritySlots.Length == maxPrioritySlot &&
        highestPriorSlot == Highest(queued) < maxPrioritySlot
      modifies `queued, `highestPriorSlot, prioritySlots
      ensures Slots() && highestPriorSlot == Highest(queued) && queued == TakeHighest(old(queued))
      ensures result == old(queued)[Highest(old(queued))][0]
    {
      result := Unlink(highestPriorSlot);
      assert Slot(highestPriorSlot, queued[highestPriorSlot]);
      if prioritySlots[highestPriorSlot].head == null {
        ClearTail(highestPriorSlot);
        Descend();
      }
    }

    method NextTask() returns (result: Task?)
      requires Valid()
      modifies `queued, `highestPriorSlot, prioritySlots
      ensures Valid() && queued == TakeHighest(old(queued))
      ensures var p := Highest(old(queued));
        result == if p == maxPrioritySlot then null else old(queued)[p][0]
    {
      result := null;
      if highestPriorSlot < maxPrioritySlot {
        Taken(queued, maxPrioritySlot);
        result := TakeHead();
      }
    }
  }
}

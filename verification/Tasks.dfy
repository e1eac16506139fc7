/** Task inputs, input arrays, tasks and groups as the objects that one thread of control works on. */
module Tasks {
  import opened Sequences
  import opened InputRules
  import Protocol

  type Status = Protocol.Status

  class InputImpl {
    var activationThreshold: nat
    var final: bool
    var synchron: bool
    var notifications: nat
    var missedNotifications: nat
    ghost var received: nat
    ghost var rounds: nat

    ghost function Value(): Input
      reads this
    {
      Input(activationThreshold, final, synchron, notifications, missedNotifications, received, rounds)
    }

    predicate IsActivated()
      reads this
      ensures IsActivated() == Activated(Value())
    {
      if final && activationThreshold == 0 then notifications > 0 else notifications >= activationThreshold
    }

    // A new input that waits for its first notification
    constructor (activations: nat, isFinal: bool)
      ensures Configured(Value()) && Value() == Input(activations, isFinal, 0 < activations, 0, 0, 0, 0)
    {
      activationThreshold := activations;
      final := isFinal;
      synchron := 0 < activations;
      notifications, missedNotifications := 0, 0;
      received, rounds := 0, 0;
    }

    // What has been counted stays
    method Configure(activations: nat, isFinal: bool)
      modifies this
      ensures Configured(Value()) && Value() == Reconfigured(old(Value()), activations, isFinal)
      ensures activationThreshold == activations && final == isFinal && (synchron <==> 0 < activations)
      ensures notifications == old(notifications) && missedNotifications == old(missedNotifications)
    {
      activationThreshold := activations;
      final := isFinal;
      synchron := activationThreshold > 0;
    }

    method SetSynchron(syncState: bool)
      modifies this
      ensures Value() == SwitchSynchron(old(Value()), syncState)
      ensures synchron <==> syncState && 0 < activationThreshold
    {
      synchron := syncState && 0 < activationThreshold;
      if synchron {
        if notifications > activationThreshold {
          missedNotifications := notifications - activationThreshold;
          notifications := activationThreshold;
        }
      } else {
        notifications := notifications + missedNotifications;
        missedNotifications := 0;
      }
    }

    // Tells whether the caller has to activate the task
    method NotifyInput() returns (activates: bool)
      modifies this
      ensures Value() == Notify(old(Value()))
      ensures activates <==> !CountsAsMissed(old(Value())) && Activated(Value())
    {
      received := received + 1;
      if synchron {
        if IsActivated() {
          missedNotifications := missedNotifications + 1;
          activates := false;
        } else {
          notifications := notifications + 1;
          activates := IsActivated();
        }
      } else {
        notifications := notifications + 1;
        activates := IsActivated();
      }
    }

    // Tells whether the caller has to activate the task
    method Reset() returns (activates: bool)
      modifies this
      ensures Value() == InputRules.Reset(old(Value()))
      ensures activates <==> Reactivates(old(Value()))
      ensures !synchron ==> notifications == 0
    {
      rounds := rounds + 1;
      activates := false;
      if synchron {
        if missedNotifications >= activationThreshold {
          missedNotifications := missedNotifications - activationThreshold;
          notifications := activationThreshold;
          activates := true;
        } else {
          notifications := missedNotifications;
          missedNotifications := 0;
        }
      } else {
        notifications := 0;
      }
    }
  }

  class InputArray {
    const inputs: seq<InputImpl>

    constructor (inputMemory: seq<InputImpl>)
      ensures inputs == inputMemory
    {
      inputs := inputMemory;
    }

    ghost function Values(): (r: seq<Input>)
      reads inputs
    {
      seq(|inputs|, k requires 0 <= k < |inputs| reads inputs => inputs[k].Value())
    }

    // The two loops end early, yet decide the rule over the whole array
    method IsActivated() returns (activate: bool)
      ensures activate <==> Active(Values())
    {
      ghost var values, flags := Values(), Flags(Values());
      activate := true;
      var lastChecked := |inputs|;
      var i := 0;
      while i < |inputs|
        invariant 0 <= i <= |inputs| && activate && lastChecked == |inputs|
        invariant forall k :: 0 <= k < i ==>
          if flags[k] then !values[k].final else values[k].final || Optional(values[k])
      {
        if !inputs[i].IsActivated() {
          if !inputs[i].final && inputs[i].activationThreshold != 0 {
            activate := false;
            lastChecked := i;
            break;
          }
        } else if inputs[i].final {
          break;
        }
        i := i + 1;
      }
      if activate {
        assert i < |inputs| ==> flags[i] && values[i].final;
        assert Rule(values, flags);
      } else {
        assert !flags[i] && Ordinary(values[i]);
      }
      i := lastChecked + 1;
      while i < |inputs|
        invariant lastChecked < i && (activate ==> |inputs| < i)
        invariant activate ==> Rule(values, flags)
        invariant !activate ==> forall k :: 0 <= k < i && k < |inputs| ==> !(flags[k] && values[k].final)
      {
        if inputs[i].IsActivated() && inputs[i].final {
          activate := true;
          assert flags[i] && values[i].final;
          break;
        }
        i := i + 1;
      }
    }
  }

  class SchedulerImpl {
    var running: bool
    var runQueue: seq<TaskImpl>

    method Perform(task: TaskImpl)
      modifies `runQueue
      ensures runQueue == if running then old(runQueue) + [task] else old(runQueue)
    {
      if running {
        runQueue := runQueue + [task];
      }
    }
  }

  class TaskImpl {
    const inputs: InputArray
    const scheduler: SchedulerImpl
    var state: Status
    var group: GroupImpl?

    constructor (inputs: InputArray, scheduler: SchedulerImpl)
      ensures this.inputs == inputs && this.scheduler == scheduler && state == Status.Finish && group == null
    {
      this.inputs, this.scheduler := inputs, scheduler;
      state, group := Status.Finish, null;
    }

    ghost predicate Valid()
      reads inputs.inputs
    {
      NoDup(inputs.inputs) && forall k :: 0 <= k < |inputs.Values()| ==> Configured(inputs.Values()[k])
    }

    // A waiting task has not been activated yet
    ghost predicate Settled()
      reads `state, inputs.inputs
    {
      state == Status.Wait && HasOrdinary(inputs.Values()) ==> !Active(inputs.Values())
    }

    // The task has been reset when its inputs were in state was
    ghost predicate AfterReset(was: seq<Input>)
      reads `state, inputs.inputs
    {
      && inputs.Values() == ResetUpTo(was, |was|) && Settled()
      && state == if Active(inputs.Values()) && SomeReactivates(was) then Status.Run else Status.Wait
    }

    method Activate()
      modifies `state, scheduler`runQueue
      ensures state == match old(state)
        case Reset => if Active(inputs.Values()) then Status.Pending else Status.Reset
        case Wait => if Active(inputs.Values()) then Status.Run else Status.Wait
        case other => other
      ensures scheduler.runQueue ==
        old(scheduler.runQueue) +
        if old(state) == Status.Wait && state == Status.Run && scheduler.running then [this] else []
    {
      if state != Status.Pending {
        if state == Status.Reset {
          var activated := inputs.IsActivated();
          if activated {
            state := Status.Pending;
          }
        } else if state == Status.Wait {
          var activated := inputs.IsActivated();
          if activated {
            state := Status.Run;
            scheduler.Perform(this);
          }
        }
      }
    }

    // A notification at input i
    method NotifyInput(i: nat)
      requires Valid() && Settled() && i < |inputs.inputs|
      modifies `state, inputs.inputs[i], scheduler`runQueue
      ensures Valid() && Settled()
      ensures inputs.Values() == old(inputs.Values()[i := Notify(inputs.Values()[i])])
      ensures old(state) != Status.Reset && HasOrdinary(inputs.Values()) ==>
        state == if old(state) == Status.Wait && Active(inputs.Values()) then Status.Run else old(state)
      ensures old(state) == Status.Reset ==>
        var reports := old(!CountsAsMissed(inputs.inputs[i].Value())) && Activated(inputs.inputs[i].Value());
        state == if reports && Active(inputs.Values()) then Status.Pending else Status.Reset
      ensures scheduler.runQueue ==
        old(scheduler.runQueue) +
        if old(state) == Status.Wait && state == Status.Run && scheduler.running then [this] else []
    {
      ghost var was := inputs.Values();
      NoDupFrom(inputs.inputs, i);
      var activates := inputs.inputs[i].NotifyInput();
      assert inputs.Values() == was[i := Notify(was[i])];
      if activates {
        Activate();
      } else {
        SameRule(was, inputs.Values());
      }
    }

    method ResetInputs()
      requires Valid() && state == Status.Reset
      modifies `state, inputs.inputs, scheduler`runQueue
      ensures Valid() && scheduler.runQueue == old(scheduler.runQueue)
      ensures inputs.Values() == old(ResetUpTo(inputs.Values(), |inputs.inputs|))
      ensures state == if old(PendingAfter(inputs.Values(), |inputs.inputs|)) then Status.Pending else Status.Reset
    {
      ghost var was := inputs.Values();
      var i := 0;
      assert ResetUpTo(was, 0) == was;
      while i < |inputs.inputs|
        invariant 0 <= i <= |inputs.inputs| && inputs.Values() == ResetUpTo(was, i)
        invariant state == if PendingAfter(was, i) then Status.Pending else Status.Reset
        invariant scheduler.runQueue == old(scheduler.runQueue)
      {
        ghost var sofar := inputs.Values();
        NoDupFrom(inputs.inputs, i);
        ResetNext(was, i);
        var activates := inputs.inputs[i].Reset();
        assert inputs.Values() == sofar[i := InputRules.Reset(sofar[i])];
        if activates {
          Activate();
        }
        i := i + 1;
      }
    }

    // The task runs again exactly if the inputs are activated by what they had missed
    method Reset()
      requires Valid()
      modifies `state, inputs.inputs, scheduler`runQueue
      ensures Valid() && AfterReset(old(inputs.Values()))
      ensures scheduler.runQueue ==
        old(scheduler.runQueue) + if state == Status.Run && scheduler.running then [this] else []
    {
      ghost var was := inputs.Values();
      state := Status.Reset;
      ResetInputs();
      var again := false;
      if state == Status.Pending {
        again := inputs.IsActivated();
      }
      if again {
        state := Status.Run;
        scheduler.Perform(this);
      } else {
        state := Status.Wait;
      }
      if Active(ResetUpTo(was, |was|)) {
        PendingIff(was);
      }
    }
  }

  class GroupImpl {
    const taskList: array<TaskImpl?>

    constructor (n: nat)
      ensures fresh(taskList) && taskList.Length == n && Filled(0)
    {
      taskList := new TaskImpl?[n](_ => null);
    }

    // The tasks that joined fill the first n slots
    ghost predicate Filled(n: nat)
      reads taskList
    {
      && n <= taskList.Length
      && (forall i :: 0 <= i < n ==> taskList[i] != null)
      && (forall i :: n <= i < taskList.Length ==> taskList[i] == null)
    }

    // Tasks beyond the size of the group are ignored
    method Join(task: TaskImpl, ghost n: nat)
      requires Filled(n)
      modifies taskList, task`group
      ensures n < taskList.Length ==> Filled(n + 1) && taskList[n] == task && task.group == this
      ensures n == taskList.Length ==> Filled(n) && task.group == old(task.group)
      ensures forall i :: 0 <= i < n ==> taskList[i] == old(taskList[i])
    {
      var freeSlot := 0;
      while freeSlot < taskList.Length && taskList[freeSlot] != null
        invariant 0 <= freeSlot <= n
      {
        freeSlot := freeSlot + 1;
      }
      if freeSlot < taskList.Length {
        task.group := this;
        taskList[freeSlot] := task;
      }
    }

    method AreAllExecuted(ghost n: nat) returns (result: bool)
      requires Filled(n)
      ensures result <==> forall i :: 0 <= i < n ==> taskList[i].state == Status.Finish
    {
      result := true;
      var i := 0;
      while result && i < taskList.Length && taskList[i] != null
        invariant 0 <= i <= n
        invariant result <==> forall k :: 0 <= k < i ==> taskList[k].state == Status.Finish
      {
        result := taskList[i].state == Status.Finish;
        i := i + 1;
      }
    }
  }

  // Takes the only queued task, executes and resets it
  method ExecuteNext(scheduler: SchedulerImpl, task: TaskImpl)
    requires scheduler.running && task.scheduler == scheduler && task.Valid() && scheduler.runQueue == [task]
    requires AllPlain(task.inputs.Values()) && task.inputs.inputs != [] && Active(task.inputs.Values())
    modifies scheduler`runQueue, task`state, task.inputs.inputs
    ensures task.Valid() && task.inputs.Values() == old(ResetUpTo(task.inputs.Values(), |task.inputs.inputs|))
    ensures AllPlain(task.inputs.Values())
    ensures task.state == if Active(task.inputs.Values()) then Status.Run else Status.Wait
    ensures scheduler.runQueue == if Active(task.inputs.Values()) then [task] else []
  {
    ghost var values := task.inputs.Values();
    var next := scheduler.runQueue[0];
    scheduler.runQueue := scheduler.runQueue[1..];
    next.Reset();
    ReactivatedIsActive(values);
  }

  // The loop of the unit test scheduler that executes tasks until none is queued, for one task outside of any group
  // and with synchronous inputs: it ends, after exactly the executions that the notifications allow
  method ExecuteQueued(scheduler: SchedulerImpl, task: TaskImpl) returns (executions: nat)
    requires scheduler.running && task.scheduler == scheduler && task.group == null && task.Valid()
    requires AllPlain(task.inputs.Values()) && task.inputs.inputs != []
    requires task.state == Status.Wait || task.state == Status.Run
    requires task.state == Status.Run <==> Active(task.inputs.Values())
    requires scheduler.runQueue == if task.state == Status.Run then [task] else []
    modifies scheduler`runQueue, task`state, task.inputs.inputs
    ensures scheduler.runQueue == [] && task.state == Status.Wait && !Active(task.inputs.Values())
    ensures executions == Executions(old(task.inputs.Values()))
  {
    executions := 0;
    ghost var was := task.inputs.Values();
    while |scheduler.runQueue| > 0
      invariant task.Valid() && AllPlain(task.inputs.Values())
      invariant task.state == if Active(task.inputs.Values()) then Status.Run else Status.Wait
      invariant scheduler.runQueue == if Active(task.inputs.Values()) then [task] else []
      invariant executions + Executions(task.inputs.Values()) == Executions(was)
      decreases Outstanding(task.inputs.Values()[0])
    {
      ghost var values := task.inputs.Values();
      ActiveIsAll(values);
      assert Activated(values[0]) && Plain(values[0]);
      ExecuteNext(scheduler, task);
      executions := executions + 1;
    }
  }

  // Plain inputs that are all activated are activated again exactly by their missed notifications
  lemma {:induction false} ReactivatedIsActive(inputs: seq<Input>)
    requires AllPlain(inputs) && inputs != []
    ensures AllPlain(ResetUpTo(inputs, |inputs|))
    ensures Active(ResetUpTo(inputs, |inputs|)) ==> SomeReactivates(inputs)
  {
    var reset := ResetUpTo(inputs, |inputs|);
    assert forall i :: 0 <= i < |inputs| ==> Plain(inputs[i]) ==> Plain(reset[i]);
    ActiveIsAll(reset);
    if Active(reset) {
      assert Activated(reset[0]) && Plain(inputs[0]);
      assert Reactivates(inputs[0]);
    }
  }

  lemma {:induction false} SameRule(a: seq<Input>, b: seq<Input>)
    requires |a| == |b| && Flags(a) == Flags(b)
    requires forall k :: 0 <= k < |a| ==> a[k].final == b[k].final && a[k].threshold == b[k].threshold
    ensures Active(a) == Active(b) && HasOrdinary(a) == HasOrdinary(b)
  {
  }
}

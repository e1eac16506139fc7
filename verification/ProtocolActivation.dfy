/** No activation of a task gets lost, whatever the interleaving. */
module ProtocolActivation {
  import opened Sequences
  import opened InputRules
  import opened Protocol
  import opened ProtocolShape

  // The inputs of the first p alone activate the task
  ghost predicate ActiveUpTo(inputs: seq<Input>, p: nat) {
    || (exists k :: 0 <= k < |inputs| && k < p && Activated(inputs[k]) && inputs[k].final)
    || (HasOrdinary(inputs) && forall k :: 0 <= k < |inputs| && Ordinary(inputs[k]) ==> k < p && Activated(inputs[k]))
  }

  // No activated input of the first p that matters was found not activated
  ghost predicate Faithful(seen: seq<bool>, inputs: seq<Input>, p: nat) {
    forall k :: 0 <= k < |seen| && k < |inputs| && k < p ==>
      Activated(inputs[k]) && !(Optional(inputs[k]) && !inputs[k].final) ==> seen[k]
  }

  // The call still has to report what it counted, or is about to find the inputs activated
  ghost predicate Witness(call: Call, t: nat, inputs: seq<Input>, p: nat) {
    match call
    case Idle => false
    case Counted(u, i) => u == t && i < |inputs| && i < p && Activated(inputs[i])
    case Calling(u) => u == t
    case Scanning(u, seen) => u == t && Faithful(seen, inputs, p)
  }

  ghost predicate Witnessed(s: State, t: nat, p: nat)
    requires t < |s.tasks|
  {
    exists j :: 0 <= j < |s.calls| && Witness(s.calls[j], t, s.tasks[t].inputs, p)
  }

  // Number of inputs that carry notifications after the last reset only
  ghost function Renewed(s: State, t: nat): nat
    requires t < |s.tasks|
  {
    var task := s.tasks[t];
    if task.status == Status.Reset && task.place.With? && task.place.w < |s.workers| &&
      s.workers[task.place.w].ResettingInputs?
    then s.workers[task.place.w].p else |task.inputs|
  }

  // What the closing section of a reset has read so far
  ghost function ClosingSeen(s: State, t: nat): Option<seq<bool>>
    requires t < |s.tasks|
  {
    var task := s.tasks[t];
    if task.place.With? && task.place.w < |s.workers| && s.workers[task.place.w].Closing?
    then Some(s.workers[task.place.w].seen) else None
  }

  ghost predicate Covered(s: State, t: nat)
    requires t < |s.tasks|
  {
    var inputs, p := s.tasks[t].inputs, Renewed(s, t);
    && ((s.tasks[t].status == Wait || s.tasks[t].status == Status.Reset) && ActiveUpTo(inputs, p) ==>
      Witnessed(s, t, p))
    && (ClosingSeen(s, t).Some? && ActiveUpTo(inputs, |inputs|) ==>
          Faithful(ClosingSeen(s, t).value, inputs, |inputs|) || Witnessed(s, t, |inputs|))
  }

  lemma {:induction false} FaithfulDecides(seen: seq<bool>, inputs: seq<Input>, p: nat)
    requires |seen| == |inputs| && Faithful(seen, inputs, p) && ActiveUpTo(inputs, p)
    ensures Rule(inputs, seen)
  {
  }

  // An activation in s is still reported in s' when no call but j, on t, has changed
  lemma {:induction false} CoveredElsewhere(s: State, s': State, j: nat, w: nat, t: nat, u: nat)
    requires Shape(s) && Local(s, s', j, w, t) && u < |s.tasks| && u != t && Covered(s, u)
    requires j < |s.calls| ==> s.calls[j] == Idle || s.calls[j].task == t
    ensures Covered(s', u)
  {
    assert TaskOk(s, u);
    assert Renewed(s', u) == Renewed(s, u) && ClosingSeen(s', u) == ClosingSeen(s, u);
    WitnessElsewhere(s, s', j, u, t, Renewed(s, u));
    WitnessElsewhere(s, s', j, u, t, |s.tasks[u].inputs|);
  }

  lemma {:induction false} WitnessElsewhere(s: State, s': State, j: nat, u: nat, t: nat, p: nat)
    requires u < |s.tasks| == |s'.tasks| && s'.tasks[u] == s.tasks[u] && u != t && |s'.calls| == |s.calls|
    requires forall k :: 0 <= k < |s.calls| && k != j ==> s'.calls[k] == s.calls[k]
    requires j < |s.calls| ==> s.calls[j] == Idle || s.calls[j].task == t
    ensures Witnessed(s, u, p) ==> Witnessed(s', u, p)
  {
    if Witnessed(s, u, p) {
      var k :| 0 <= k < |s.calls| && Witness(s.calls[k], u, s.tasks[u].inputs, p);
      assert Witness(s'.calls[k], u, s'.tasks[u].inputs, p);
    }
  }

  lemma {:induction false} SameOrdinary(a: seq<Input>, b: seq<Input>)
    requires |a| == |b| && HasOrdinary(a)
    requires forall k :: 0 <= k < |a| ==> a[k].final == b[k].final && a[k].threshold == b[k].threshold
    ensures HasOrdinary(b)
  {
    var k :| 0 <= k < |a| && Ordinary(a[k]);
    assert Ordinary(b[k]);
  }

  lemma {:induction false} SameActivations(a: seq<Input>, b: seq<Input>, p: nat)
    requires |a| == |b| && ActiveUpTo(a, p)
    requires forall k :: 0 <= k < |a| ==> a[k].final == b[k].final && a[k].threshold == b[k].threshold
    requires forall k :: 0 <= k < |a| && k < p ==> Activated(a[k]) == Activated(b[k])
    ensures ActiveUpTo(b, p)
  {
    if k :| 0 <= k < |a| && k < p && Activated(a[k]) && a[k].final {
      assert Activated(b[k]) && b[k].final;
    } else {
      SameOrdinary(a, b);
      forall k | 0 <= k < |b| && Ordinary(b[k]) ensures k < p && Activated(b[k]) {
        assert Ordinary(a[k]);
      }
    }
  }

  // Another notification keeps the report of an activation, or is itself the report
  lemma {:induction false} NotifyWitness(s: State, j: nat, t: nat, i: nat, p: nat)
    requires Shape(s) && CanNotify(s, j, t, i)
    requires ActiveUpTo(s.tasks[t].inputs, p) ==> Witnessed(s, t, p)
    ensures var s' := DoNotify(s, j, t, i); ActiveUpTo(s'.tasks[t].inputs, p) ==> Witnessed(s', t, p)
  {
    var s' := DoNotify(s, j, t, i);
    var a, b := s.tasks[t].inputs, s'.tasks[t].inputs;
    if ActiveUpTo(b, p) {
      if i < p && Activated(b[i]) && !CountsAsMissed(a[i]) {
        assert Witness(s'.calls[j], t, b, p);
      } else {
        assert forall k :: 0 <= k < |a| && k < p ==> Activated(a[k]) == Activated(b[k]);
        SameActivations(b, a, p);
        var k :| 0 <= k < |s.calls| && Witness(s.calls[k], t, a, p);
        assert Witness(s'.calls[k], t, b, p);
      }
    }
  }

  lemma {:induction false} NotifyCovered(s: State, j: nat, t: nat, i: nat)
    requires Shape(s) && CanNotify(s, j, t, i) && Covered(s, t)
    ensures Covered(DoNotify(s, j, t, i), t)
  {
    var s' := DoNotify(s, j, t, i);
    var a, b := s.tasks[t].inputs, s'.tasks[t].inputs;
    if s.tasks[t].status == Wait || s.tasks[t].status == Status.Reset {
      NotifyWitness(s, j, t, i, Renewed(s, t));
    }
    if ClosingSeen(s, t).Some? && ActiveUpTo(b, |b|) && !Faithful(ClosingSeen(s, t).value, b, |b|) {
      if Faithful(ClosingSeen(s, t).value, a, |a|) {
        assert Witness(s'.calls[j], t, b, |b|);
      } else {
        NotifyWitness(s, j, t, i, |a|);
      }
    }
  }

  // A step that moves call j along and leaves the inputs of its task alone
  lemma {:induction false} MovedWitness(s: State, s': State, j: nat, t: nat, p: nat)
    requires t < |s.tasks| && t < |s'.tasks| && s'.tasks[t].inputs == s.tasks[t].inputs
    requires j < |s.calls| == |s'.calls|
    requires forall k :: 0 <= k < |s.calls| && k != j ==> s'.calls[k] == s.calls[k]
    requires Witness(s.calls[j], t, s.tasks[t].inputs, p) ==> Witness(s'.calls[j], t, s.tasks[t].inputs, p)
    ensures Witnessed(s, t, p) ==> Witnessed(s', t, p)
  {
    if Witnessed(s, t, p) {
      var k :| 0 <= k < |s.calls| && Witness(s.calls[k], t, s.tasks[t].inputs, p);
      assert Witness(s'.calls[k], t, s'.tasks[t].inputs, p);
    }
  }

  lemma {:induction false} CheckCovered(s: State, j: nat)
    requires Shape(s) && CanCheck(s, j) && Covered(s, s.calls[j].task)
    ensures Covered(DoCheck(s, j), s.calls[j].task)
  {
    var t := s.calls[j].task;
    MovedWitness(s, DoCheck(s, j), j, t, Renewed(s, t));
    MovedWitness(s, DoCheck(s, j), j, t, |s.tasks[t].inputs|);
  }

  lemma {:induction false} EnterCovered(s: State, j: nat)
    requires Shape(s) && CanEnter(s, j) && Covered(s, s.calls[j].task)
    ensures Covered(DoEnter(s, j), s.calls[j].task)
  {
    var t, s' := s.calls[j].task, DoEnter(s, j);
    assert CallOk(s, j) && TaskOk(s, t);
    assert Holder(s, t) < |s.workers| ==> WorkerOk(s, Holder(s, t));
    if s.tasks[t].status == Wait || s.tasks[t].status == Status.Reset {
      MovedWitness(s, s', j, t, Renewed(s, t));
    }
  }

  lemma {:induction false} ScanCovered(s: State, j: nat)
    requires Shape(s) && CanScan(s, j) && Covered(s, s.calls[j].task)
    ensures Covered(DoScan(s, j), s.calls[j].task)
  {
    var t := s.calls[j].task;
    assert CallOk(s, j);
    MovedWitness(s, DoScan(s, j), j, t, Renewed(s, t));
    MovedWitness(s, DoScan(s, j), j, t, |s.tasks[t].inputs|);
  }

  lemma {:induction false} DecideCovered(s: State, j: nat)
    requires Shape(s) && CanDecide(s, j) && Covered(s, s.calls[j].task)
    ensures Covered(DoDecide(s, j), s.calls[j].task)
  {
    var t, seen, s' := s.calls[j].task, s.calls[j].seen, DoDecide(s, j);
    var inputs, p := s.tasks[t].inputs, Renewed(s, t);
    assert CallOk(s, j) && TaskOk(s, t);
    assert Holder(s, t) < |s.workers| ==> WorkerOk(s, Holder(s, t));
    if !Rule(inputs, seen) && ActiveUpTo(inputs, p) {
      if Faithful(seen, inputs, p) {
        FaithfulDecides(seen, inputs, p);
      }
      MovedWitness(s, s', j, t, p);
    }
  }

  lemma {:induction false} StartResetCovered(s: State, w: nat)
    requires Shape(s) && CanStartReset(s, w)
    ensures Covered(DoStartReset(s, w), s.workers[w].todo[0])
  {
  }

  lemma {:induction false} ResetInputCovered(s: State, w: nat)
    requires Shape(s) && CanResetInput(s, w) && Covered(s, s.workers[w].todo[0])
    requires Configured(s.tasks[s.workers[w].todo[0]].inputs[s.workers[w].p])
    ensures Covered(DoResetInput(s, w), s.workers[w].todo[0])
  {
    var t, p, s' := s.workers[w].todo[0], s.workers[w].p, DoResetInput(s, w);
    var a, b := s.tasks[t].inputs, s'.tasks[t].inputs;
    assert CallOk(s, w) && TaskOk(s, t) && WorkerOk(s, w);
    if s.tasks[t].status == Status.Reset && ActiveUpTo(b, p + 1) {
      if Reactivates(a[p]) {
        assert Witness(s'.calls[w], t, b, p + 1);
      } else {
        NotRenewed(a, b, p);
        var k :| 0 <= k < |s.calls| && Witness(s.calls[k], t, a, p);
        assert Witness(s'.calls[k], t, b, p + 1);
      }
    }
  }

  // An input that is not activated again by its reset contributes nothing
  lemma {:induction false} NotRenewed(a: seq<Input>, b: seq<Input>, p: nat)
    requires p < |a| && Configured(a[p]) && !Reactivates(a[p]) && b == a[p := InputRules.Reset(a[p])]
    requires ActiveUpTo(b, p + 1)
    ensures ActiveUpTo(a, p)
    ensures Activated(b[p]) ==> Optional(b[p]) && !b[p].final
  {
    if HasOrdinary(b) {
      SameOrdinary(b, a);
    }
    assert forall k :: 0 <= k < |a| && k != p ==> a[k] == b[k];
    assert Ordinary(a[p]) == Ordinary(b[p]);
  }

  lemma {:induction false} EndInputsCovered(s: State, w: nat)
    requires Shape(s) && CanEndInputs(s, w) && Covered(s, s.workers[w].todo[0])
    ensures Covered(DoEndInputs(s, w), s.workers[w].todo[0])
  {
    var t, s' := s.workers[w].todo[0], DoEndInputs(s, w);
    assert WorkerOk(s, w);
    assert Witnessed(s, t, |s.tasks[t].inputs|) ==> Witnessed(s', t, |s.tasks[t].inputs|);
  }

  lemma {:induction false} CloseScanCovered(s: State, w: nat)
    requires Shape(s) && CanCloseScan(s, w) && Covered(s, s.workers[w].todo[0])
    ensures Covered(DoCloseScan(s, w), s.workers[w].todo[0])
  {
    var t, s' := s.workers[w].todo[0], DoCloseScan(s, w);
    assert WorkerOk(s, w);
    assert Witnessed(s, t, |s.tasks[t].inputs|) ==> Witnessed(s', t, |s.tasks[t].inputs|);
  }

  lemma {:induction false} CloseCovered(s: State, w: nat)
    requires Shape(s) && CanClose(s, w) && Covered(s, s.workers[w].todo[0])
    ensures Covered(DoClose(s, w), s.workers[w].todo[0])
  {
    var t, s' := s.workers[w].todo[0], DoClose(s, w);
    var inputs, seen := s.tasks[t].inputs, s.workers[w].seen;
    assert WorkerOk(s, w);
    assert Witnessed(s, t, |inputs|) ==> Witnessed(s', t, |inputs|);
    if !Rule(inputs, seen) && ActiveUpTo(inputs, |inputs|) && Faithful(seen, inputs, |inputs|) {
      FaithfulDecides(seen, inputs, |inputs|);
    }
  }

  lemma {:induction false} StepCovered(s: State, a: Action, u: nat)
    requires Shape(s) && GroupsOk(s) && Enabled(s, a) && u < |s.tasks| && Covered(s, u)
    requires forall i :: 0 <= i < |s.tasks[u].inputs| ==> Configured(s.tasks[u].inputs[i])
    ensures Covered(Step(s, a), u)
  {
    StepShape(s, a);
    if u != TaskOf(s, a) {
      CoveredElsewhere(s, Step(s, a), CallOf(s, a), WorkerOf(s, a), TaskOf(s, a), u);
    } else {
      match a
      case Notify(j, t, i) => NotifyCovered(s, j, t, i);
      case Check(j) => CheckCovered(s, j);
      case Enter(j) => EnterCovered(s, j);
      case Scan(j) => ScanCovered(s, j);
      case Decide(j) => DecideCovered(s, j);
      case StartReset(w) => StartResetCovered(s, w);
      case ResetInput(w) => ResetInputCovered(s, w);
      case EndInputs(w) => EndInputsCovered(s, w);
      case CloseScan(w) => CloseScanCovered(s, w);
      case Close(w) => CloseCovered(s, w);
      case _ => ExecutionCovered(s, a, u);
    }
  }

  // A task that runs or has finished needs no report
  lemma {:induction false} ExecutionCovered(s: State, a: Action, u: nat)
    requires Shape(s) && Enabled(s, a) && u < |s.tasks| && u == TaskOf(s, a)
    requires a.Fetch? || a.Begin? || a.Leave? || a.Retire?
    ensures Covered(Step(s, a), u)
  {
    assert WorkerOk(s, a.w) && TaskOk(s, u);
  }
}

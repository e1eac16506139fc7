/** What holds in every state that is reachable after a start with reset on empty inputs. */
module ProtocolRuns {
  import opened Arithmetic
  import opened Sequences
  import opened InputRules
  import opened Protocol
  import opened ProtocolShape
  import opened ProtocolActivation
  import opened ProtocolCounting

  ghost predicate Fresh(input: Input) {
    Configured(input) && input.notifications == 0 && input.missed == 0 && input.received == 0 && input.rounds == 0
  }

  ghost predicate Initial(s: State) {
    && |s.workers| <= |s.calls| && s.runQueue == [] && s.sync == None && GroupsOk(s)
    && (forall j :: 0 <= j < |s.calls| ==> s.calls[j] == Idle)
    && (forall w :: 0 <= w < |s.workers| ==> s.workers[w] == Free)
    && (forall g :: 0 <= g < |s.epochs| ==> s.epochs[g] == 0)
    && (forall t :: 0 <= t < |s.tasks| ==>
      s.tasks[t] == Task(Wait, s.tasks[t].inputs, Nobody, s.tasks[t].group, Nowhere, 0))
    && (forall t, i :: 0 <= t < |s.tasks| && 0 <= i < |s.tasks[t].inputs| ==> Fresh(s.tasks[t].inputs[i]))
  }

  ghost predicate TaskInvariant(s: State, t: nat)
    requires t < |s.tasks|
  {
    && (forall i :: 0 <= i < |s.tasks[t].inputs| ==> Configured(s.tasks[t].inputs[i]))
    && Covered(s, t) && Counts(s, t)
  }

  ghost predicate Invariant(s: State) {
    Shape(s) && GroupsOk(s) && forall t :: 0 <= t < |s.tasks| ==> TaskInvariant(s, t)
  }

  lemma {:induction false} InitialInvariant(s: State)
    requires Initial(s)
    ensures Invariant(s)
  {
    forall t | 0 <= t < |s.tasks| ensures TaskInvariant(s, t) {
      assert forall i :: 0 <= i < |s.tasks[t].inputs| ==> Fresh(s.tasks[t].inputs[i]);
    }
  }

  lemma {:induction false} StepInvariant(s: State, a: Action)
    requires Invariant(s) && Enabled(s, a)
    ensures Invariant(Step(s, a))
  {
    StepShape(s, a);
    StepGroups(s, a);
    forall t | 0 <= t < |s.tasks| ensures TaskInvariant(Step(s, a), t) {
      assert TaskInvariant(s, t);
      StepConfiguration(s, a, t);
      StepCovered(s, a, t);
      StepCounts(s, a, t);
    }
  }

  lemma {:induction false} RunInvariant(s: State, run: seq<Action>)
    requires Invariant(s) && RunEnabled(s, run)
    ensures Invariant(After(s, run))
    decreases |run|
  {
    if run != [] {
      StepInvariant(s, run[0]);
      RunInvariant(Step(s, run[0]), run[1..]);
    }
  }

  // ---- what a run does not change, and what it counts

  function Notifications(run: seq<Action>, t: nat, i: nat): nat {
    if run == [] then 0
    else (if run[0].Notify? && run[0].task == t && run[0].input == i then 1 else 0) + Notifications(run[1..], t, i)
  }

  // Only the notification of an input counts one for it
  lemma {:induction false} NotifyReceived(s: State, j: nat, t: nat, p: nat, i: nat)
    requires CanNotify(s, j, t, p) && i < |s.tasks[t].inputs|
    ensures DoNotify(s, j, t, p).tasks[t].inputs[i].received ==
      s.tasks[t].inputs[i].received + (if i == p then 1 else 0)
  {
  }

  lemma {:induction false} ResetReceived(s: State, w: nat, i: nat)
    requires CanResetInput(s, w) && i < |s.tasks[s.workers[w].todo[0]].inputs|
    ensures var t := s.workers[w].todo[0];
      DoResetInput(s, w).tasks[t].inputs[i].received == s.tasks[t].inputs[i].received
  {
  }

  lemma {:induction false} StepReceived(s: State, a: Action, t: nat, i: nat)
    requires Shape(s) && GroupsOk(s) && Enabled(s, a) && t < |s.tasks| && i < |s.tasks[t].inputs|
    requires t < |Step(s, a).tasks| && i < |Step(s, a).tasks[t].inputs|
    ensures Step(s, a).tasks[t].inputs[i].received ==
      s.tasks[t].inputs[i].received + (if a.Notify? && a.task == t && a.input == i then 1 else 0)
  {
    if a.Notify? && a.task == t {
      NotifyReceived(s, a.j, t, a.input, i);
    } else if a.ResetInput? && s.workers[a.w].todo[0] == t {
      ResetReceived(s, a.w, i);
    } else {
      SameInputs(s, a, t);
    }
  }

  // The configuration of a task is the same
  ghost predicate Keeps(s: State, s': State, t: nat) {
    && t < |s.tasks| && t < |s'.tasks| && |s'.workers| == |s.workers| && s'.groups == s.groups
    && s'.tasks[t].group == s.tasks[t].group && SameConfiguration(s.tasks[t].inputs, s'.tasks[t].inputs)
  }

  lemma {:induction false} StepKeeps(s: State, a: Action, t: nat)
    requires Invariant(s) && Enabled(s, a) && t < |s.tasks|
    ensures Keeps(s, Step(s, a), t)
  {
    StepShape(s, a);
    StepConfiguration(s, a, t);
  }

  lemma {:induction false} KeepsAll(s: State, s1: State, s2: State, t: nat)
    requires Keeps(s, s1, t) && Keeps(s1, s2, t)
    ensures Keeps(s, s2, t)
  {
  }

  lemma {:induction false} RunKeeps(s: State, run: seq<Action>, t: nat)
    requires Invariant(s) && RunEnabled(s, run) && t < |s.tasks|
    ensures Keeps(s, After(s, run), t)
    decreases |run|
  {
    if run != [] {
      StepKeeps(s, run[0], t);
      StepInvariant(s, run[0]);
      RunKeeps(Step(s, run[0]), run[1..], t);
      KeepsAll(s, Step(s, run[0]), After(s, run), t);
    }
  }

  lemma {:induction false} RunReceived(s: State, run: seq<Action>, t: nat, i: nat)
    requires Invariant(s) && RunEnabled(s, run) && t < |s.tasks| && i < |s.tasks[t].inputs|
    ensures Keeps(s, After(s, run), t)
    ensures After(s, run).tasks[t].inputs[i].received == s.tasks[t].inputs[i].received + Notifications(run, t, i)
    decreases |run|
  {
    RunKeeps(s, run, t);
    if run != [] {
      StepKeeps(s, run[0], t);
      StepReceived(s, run[0], t, i);
      StepInvariant(s, run[0]);
      RunReceived(Step(s, run[0]), run[1..], t, i);
    }
  }

  // ---- no activation is lost

  // A caller outside the workers has counted a notification and not yet dealt with the activation
  ghost predicate UnderReport(s: State, t: nat)
    requires t < |s.tasks|
  {
    exists j :: |s.workers| <= j < |s.calls| && Witness(s.calls[j], t, s.tasks[t].inputs, |s.tasks[t].inputs|)
  }

  // The inputs are activated by notifications: an activated final input, or all ordinary inputs if there are any
  ghost predicate Called(inputs: seq<Input>) {
    || (exists k :: 0 <= k < |inputs| && Activated(inputs[k]) && inputs[k].final)
    || (HasOrdinary(inputs) && Active(inputs))
  }

  lemma {:induction false} CalledUpTo(inputs: seq<Input>)
    requires Called(inputs)
    ensures ActiveUpTo(inputs, |inputs|)
  {
    var flags := Flags(inputs);
    assert forall k :: 0 <= k < |inputs| ==> flags[k] == Activated(inputs[k]);
  }

  lemma {:induction false} CalledReported(s: State, t: nat)
    requires Invariant(s) && t < |s.tasks| && s.tasks[t].status == Wait && Called(s.tasks[t].inputs)
    ensures UnderReport(s, t)
  {
    var inputs := s.tasks[t].inputs;
    assert TaskInvariant(s, t);
    CalledUpTo(inputs);
    var j :| 0 <= j < |s.calls| && Witness(s.calls[j], t, inputs, |inputs|);
    assert CallOk(s, j);
    assert j < |s.workers| ==> WorkerOk(s, j);
  }

  // Whenever the notifications of a waiting task activate it, a notifier still has to report that
  lemma {:induction false} EveryCallReported(s: State, run: seq<Action>, t: nat)
    requires Initial(s) && RunEnabled(s, run) && t < |s.tasks|
    ensures var s' := After(s, run);
      t < |s'.tasks| && (s'.tasks[t].status == Wait && Called(s'.tasks[t].inputs) ==> UnderReport(s', t))
  {
    InitialInvariant(s);
    RunInvariant(s, run);
    RunKeeps(s, run, t);
    var s' := After(s, run);
    if s'.tasks[t].status == Wait && Called(s'.tasks[t].inputs) {
      CalledReported(s', t);
    }
  }

  ghost predicate NotLost(s: State, t: nat) {
    t < |s.tasks| && s.tasks[t].status == Wait && Active(s.tasks[t].inputs) ==> UnderReport(s, t)
  }

  ghost predicate NeverLost(s: State, t: nat) {
    forall run {:trigger After(s, run)} :: RunEnabled(s, run) ==> NotLost(After(s, run), t)
  }

  lemma {:induction false} StaysOrdinary(s: State, s': State, t: nat)
    requires Keeps(s, s', t) && HasOrdinary(s.tasks[t].inputs)
    ensures HasOrdinary(s'.tasks[t].inputs)
  {
    SameOrdinary(s.tasks[t].inputs, s'.tasks[t].inputs);
  }

  // Exactly the tasks with an ordinary input never miss an activation, in any interleaving
  lemma {:induction false} NoLostActivation(s: State, t: nat)
    requires Initial(s) && t < |s.tasks|
    ensures HasOrdinary(s.tasks[t].inputs) <==> NeverLost(s, t)
  {
    InitialInvariant(s);
    if HasOrdinary(s.tasks[t].inputs) {
      forall run | RunEnabled(s, run) ensures NotLost(After(s, run), t) {
        RunKeeps(s, run, t);
        StaysOrdinary(s, After(s, run), t);
        EveryCallReported(s, run, t);
      }
    } else {
      AlwaysActive(s.tasks[t].inputs);
      assert RunEnabled(s, []) && After(s, []) == s;
      assert !NotLost(s, t);
    }
  }

  // ---- a task is queued or executed at most once at a time

  predicate Executes(worker: Worker, t: nat) {
    worker == Fetched(t) || worker == Executing(t) || worker == Leaving(t)
  }

  function Executors(s: State, t: nat): set<nat> {
    set w: nat | w < |s.workers| && Executes(s.workers[w], t)
  }

  lemma {:induction false} OccursOnce(q: seq<nat>, t: nat)
    requires NoDup(q)
    ensures multiset(q)[t] == if t in q then 1 else 0
  {
    if t in q {
      var k :| 0 <= k < |q| && q[k] == t;
      NoDupFrom(q, k);
      assert q == q[..k] + [t] + q[k + 1..];
      assert t !in q[..k] && t !in q[k + 1..];
    }
  }

  // Times that the task is queued or executed
  function Occurrences(s: State, t: nat): nat {
    multiset(s.runQueue)[t] + |Executors(s, t)|
  }

  lemma {:induction false} OccupiesOnce(s: State, t: nat)
    requires Shape(s) && t < |s.tasks|
    ensures Occurrences(s, t) <= if s.tasks[t].status == Run then 1 else 0
  {
    var place := s.tasks[t].place;
    var busy := if place.With? && s.tasks[t].status == Run then {place.w} else {};
    assert TaskOk(s, t);
    OccursOnce(s.runQueue, t);
    assert Executors(s, t) <= busy by {
      forall w | w in Executors(s, t) ensures w in busy { assert WorkerOk(s, w); }
    }
    SubsetSize(Executors(s, t), busy);
  }

  lemma {:induction false} SingleOccupancy(s: State, run: seq<Action>, t: nat)
    requires Initial(s) && RunEnabled(s, run) && t < |s.tasks|
    ensures var s' := After(s, run); t < |s'.tasks| && Occurrences(s', t) <= if s'.tasks[t].status == Run then 1 else 0
  {
    InitialInvariant(s);
    RunInvariant(s, run);
    RunKeeps(s, run, t);
    OccupiesOnce(After(s, run), t);
  }

  lemma {:induction false} SubsetSize(a: set<nat>, b: set<nat>)
    requires a <= b
    ensures |a| <= |b|
  {
    assert b == a + (b - a);
  }

  // ---- throughput

  ghost predicate Quiet(s: State) {
    && s.runQueue == [] && (forall w :: 0 <= w < |s.workers| ==> s.workers[w] == Free)
    && (forall j :: 0 <= j < |s.calls| ==> s.calls[j] == Idle)
  }

  // Every input has received the notifications of each execution, in any state
  lemma {:induction false} EnoughReceived(s: State, t: nat, i: nat)
    requires Invariant(s) && t < |s.tasks| && AllPlain(s.tasks[t].inputs) && i < |s.tasks[t].inputs|
    ensures s.tasks[t].executions <= s.tasks[t].inputs[i].received / s.tasks[t].inputs[i].threshold
  {
    var input, k := s.tasks[t].inputs[i], s.tasks[t].executions;
    assert TaskInvariant(s, t);
    assert Plain(input) && Balanced(input);
    if Lags(s, t, i) {
      assert Armed(s, t, i);
      assert input.threshold * k == input.threshold * input.rounds + input.threshold;
    }
    Quotient(input.received, input.threshold, k);
  }

  lemma {:induction false} Throughput(s: State, run: seq<Action>, t: nat)
    requires Initial(s) && RunEnabled(s, run) && t < |s.tasks|
    requires AllPlain(s.tasks[t].inputs) && s.tasks[t].inputs != [] && s.tasks[t].group == None
    ensures var s', inputs := After(s, run), s.tasks[t].inputs;
      && t < |s'.tasks|
      && (forall i :: 0 <= i < |inputs| ==> s'.tasks[t].executions <= Notifications(run, t, i) / inputs[i].threshold)
      && (Quiet(s') ==>
            exists i :: 0 <= i < |inputs| && s'.tasks[t].executions == Notifications(run, t, i) / inputs[i].threshold)
  {
    InitialInvariant(s);
    RunInvariant(s, run);
    RunKeeps(s, run, t);
    var s', inputs := After(s, run), s.tasks[t].inputs;
    var inputs' := s'.tasks[t].inputs;
    forall i | 0 <= i < |inputs|
      ensures Fresh(inputs[i]) && Plain(inputs'[i]) && inputs'[i].received == Notifications(run, t, i)
    {
      assert Plain(inputs[i]);
      RunReceived(s, run, t, i);
    }
    forall i | 0 <= i < |inputs| ensures s'.tasks[t].executions <= Notifications(run, t, i) / inputs[i].threshold {
      EnoughReceived(s', t, i);
    }
    if Quiet(s') {
      var i := Starved(s', t);
      assert s'.tasks[t].executions == Notifications(run, t, i) / inputs[i].threshold;
    }
  }

  // Some input of an idle task that waits has not enough notifications for another execution
  lemma {:induction false} StarvedWaiting(s: State, t: nat) returns (i: nat)
    requires Invariant(s) && t < |s.tasks| && Quiet(s) && s.tasks[t].status == Wait
    requires AllPlain(s.tasks[t].inputs) && s.tasks[t].inputs != []
    ensures i < |s.tasks[t].inputs| && 0 < s.tasks[t].inputs[i].threshold
    ensures s.tasks[t].executions == s.tasks[t].inputs[i].received / s.tasks[t].inputs[i].threshold
  {
    var inputs := s.tasks[t].inputs;
    assert TaskInvariant(s, t) && TaskOk(s, t);
    assert Ordinary(inputs[0]);
    assert !Called(inputs) by {
      if Called(inputs) {
        CalledReported(s, t);
      }
    }
    i :| 0 <= i < |inputs| && !Activated(inputs[i]) && Plain(inputs[i]);
    assert Balanced(inputs[i]) && !Lags(s, t, i);
    Quotient(inputs[i].received, inputs[i].threshold, s.tasks[t].executions);
  }

  // A task outside of groups waits when everything is idle
  lemma {:induction false} Starved(s: State, t: nat) returns (i: nat)
    requires Invariant(s) && t < |s.tasks| && Quiet(s)
    requires AllPlain(s.tasks[t].inputs) && s.tasks[t].inputs != [] && s.tasks[t].group == None
    ensures i < |s.tasks[t].inputs| && 0 < s.tasks[t].inputs[i].threshold
    ensures s.tasks[t].executions == s.tasks[t].inputs[i].received / s.tasks[t].inputs[i].threshold
  {
    assert TaskInvariant(s, t) && TaskOk(s, t);
    i := StarvedWaiting(s, t);
  }

  // ---- groups

  // A member has executed once per reset of its group, and at most once more since the last one
  ghost predicate InStep(s: State, t: nat, g: nat) {
    && t < |s.tasks| && g < |s.epochs| && s.epochs[g] <= s.tasks[t].executions <= s.epochs[g] + 1
    && (s.tasks[t].status == Wait ==> s.tasks[t].executions == s.epochs[g])
  }

  lemma {:induction false} MemberInStep(s: State, t: nat, g: nat)
    requires Invariant(s) && t < |s.tasks| && s.tasks[t].group == Some(g)
    ensures InStep(s, t, g)
  {
    assert TaskInvariant(s, t) && TaskOk(s, t);
  }

  // Between two resets of its group every member executes exactly once
  lemma {:induction false} Lockstep(s: State, run: seq<Action>, t: nat, u: nat, g: nat)
    requires Initial(s) && RunEnabled(s, run) && t < |s.tasks| && u < |s.tasks|
    requires s.tasks[t].group == s.tasks[u].group == Some(g)
    ensures InStep(After(s, run), t, g) && InStep(After(s, run), u, g)
    ensures -1 <= After(s, run).tasks[t].executions - After(s, run).tasks[u].executions <= 1
  {
    InitialInvariant(s);
    RunInvariant(s, run);
    RunKeeps(s, run, t);
    RunKeeps(s, run, u);
    MemberInStep(After(s, run), t, g);
    MemberInStep(After(s, run), u, g);
  }
}

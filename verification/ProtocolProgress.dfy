/** Without further notifications every run ends, and it ends only when everything is idle. */
module ProtocolProgress {
  import opened Arithmetic
  import opened Sequences
  import opened InputRules
  import opened Protocol
  import opened ProtocolShape
  import opened ProtocolRuns
  import opened ProtocolGroups

  // ---- some step is possible until everything is idle

  ghost predicate CanProceed(s: State) {
    exists a: Action :: !a.Notify? && Enabled(s, a)
  }

  ghost predicate SyncHeld(s: State) {
    s.sync.Some? ==> s.sync.value < |s.workers|
  }

  lemma {:induction false} ScanProceeds(s: State, j: nat)
    requires Shape(s) && j < |s.calls| && s.calls[j].Scanning?
    ensures CanProceed(s)
  {
    assert CallOk(s, j);
    assert Enabled(s, Scan(j)) || Enabled(s, Decide(j));
  }

  lemma {:induction false} CloseProceeds(s: State, w: nat)
    requires Shape(s) && w < |s.workers| && s.workers[w].Closing?
    ensures CanProceed(s)
  {
    assert WorkerOk(s, w);
    assert Enabled(s, CloseScan(w)) || Enabled(s, Close(w));
  }

  // Whoever holds the mutex of a task can go on
  lemma {:induction false} OwnerProceeds(s: State, t: nat)
    requires Shape(s) && t < |s.tasks| && s.tasks[t].owner != Nobody
    ensures CanProceed(s)
  {
    assert TaskOk(s, t);
    match s.tasks[t].owner
    case ByCall(j) => ScanProceeds(s, j);
    case ByWorker(w) => CloseProceeds(s, w);
  }

  lemma {:induction false} CallProceeds(s: State, j: nat)
    requires Shape(s) && j < |s.calls| && s.calls[j] != Idle
    ensures CanProceed(s)
  {
    assert CallOk(s, j);
    match s.calls[j]
    case Counted(t, i) => assert Enabled(s, Check(j));
    case Calling(t) =>
      if s.tasks[t].owner == Nobody {
        assert Enabled(s, Enter(j));
      } else {
        OwnerProceeds(s, t);
      }
    case Scanning(t, seen) => ScanProceeds(s, j);
  }

  // A worker that resets a task can go on, or waits for its own call or for the mutex of the task
  lemma {:induction false} ResetProceeds(s: State, w: nat)
    requires Shape(s) && w < |s.workers| && s.workers[w].ResettingInputs?
    ensures CanProceed(s)
  {
    assert WorkerOk(s, w) && CallOk(s, w);
    if s.calls[w] != Idle {
      CallProceeds(s, w);
    } else if s.tasks[s.workers[w].todo[0]].owner != Nobody {
      OwnerProceeds(s, s.workers[w].todo[0]);
    } else {
      assert Enabled(s, ResetInput(w)) || Enabled(s, EndInputs(w));
    }
  }

  // The worker that holds the synchronization mutex
  lemma {:induction false} SyncProceeds(s: State, w: nat)
    requires Shape(s) && GroupsOk(s) && w < |s.workers| && s.sync == Some(w)
    ensures CanProceed(s)
  {
    assert WorkerOk(s, w);
    match s.workers[w]
    case Leaving(t) =>
      if s.tasks[t].owner == Nobody {
        assert Enabled(s, Retire(w));
      } else {
        OwnerProceeds(s, t);
      }
    case Checking(t) => assert Enabled(s, CheckGroup(w));
    case Resetting(todo) =>
      if todo == [] {
        assert Enabled(s, Release(w));
      } else if s.tasks[todo[0]].owner == Nobody {
        assert Enabled(s, StartReset(w));
      } else {
        OwnerProceeds(s, todo[0]);
      }
    case ResettingInputs(todo, p) => ResetProceeds(s, w);
    case Closing(todo, seen) => CloseProceeds(s, w);
  }

  lemma {:induction false} WorkerProceeds(s: State, w: nat)
    requires Shape(s) && GroupsOk(s) && SyncHeld(s) && w < |s.workers| && s.workers[w] != Free
    ensures CanProceed(s)
  {
    assert WorkerOk(s, w);
    if s.sync.Some? {
      SyncProceeds(s, s.sync.value);
    } else {
      assert Enabled(s, Begin(w)) || Enabled(s, Leave(w));
    }
  }

  lemma {:induction false} NoDeadlock(s: State)
    requires Shape(s) && GroupsOk(s) && SyncHeld(s) && 0 < |s.workers| && !Quiet(s)
    ensures CanProceed(s)
  {
    if w: nat :| w < |s.workers| && s.workers[w] != Free {
      WorkerProceeds(s, w);
    } else if j: nat :| j < |s.calls| && s.calls[j] != Idle {
      CallProceeds(s, j);
    } else {
      assert Enabled(s, Fetch(0, 0));
    }
  }

  lemma {:induction false} StepHeld(s: State, a: Action)
    requires SyncHeld(s) && Enabled(s, a)
    ensures SyncHeld(Step(s, a))
  {
  }

  // ---- every step but a notification uses something up

  function Sum(q: seq<nat>): nat {
    if q == [] then 0 else q[0] + Sum(q[1..])
  }

  lemma {:induction false} SumChanged(q: seq<nat>, i: nat, x: nat)
    requires i < |q|
    ensures Sum(q[i := x]) + q[i] == Sum(q) + x
  {
    var r := q[i := x];
    if i == 0 {
      assert r[1..] == q[1..];
    } else {
      assert r[1..] == q[1..][i - 1 := x];
      SumChanged(q[1..], i - 1, x);
    }
  }

  // The steps of a reset, of an execution with its reset, and of a call with the execution it leads to,
  // for arrays of at most n inputs
  function ResetSteps(n: nat): nat {
    2 * n + 3
  }

  function RunSteps(n: nat): nat {
    ResetSteps(n) + 6
  }

  function CallSteps(n: nat): nat {
    n + 2 + RunSteps(n)
  }

  function Rest(n: nat, k: nat): nat {
    if k <= n then n - k else 0
  }

  function CallWeight(n: nat, call: Call): nat {
    match call
    case Idle => 0
    case Counted(_, _) => CallSteps(n) + 1
    case Calling(_) => CallSteps(n)
    case Scanning(_, seen) => Rest(n, |seen|) + 1 + RunSteps(n)
  }

  function WorkerWeight(n: nat, worker: Worker): nat {
    match worker
    case Free => 0
    case Fetched(_) => 5
    case Executing(_) => 4
    case Leaving(_) => 3
    case Checking(_) => 2
    case Resetting(_) => 1
    case ResettingInputs(_, p) => Rest(n, p) + n + 3
    case Closing(_, seen) => Rest(n, |seen|) + 2
  }

  function Missed(inputs: seq<Input>): nat {
    if inputs == [] then 0 else inputs[0].missed + Missed(inputs[1..])
  }

  function StateWeight(n: nat, status: Status, place: Place): nat {
    match status
    case Wait => 0
    case Run => if place == InQueue then RunSteps(n) else ResetSteps(n)
    case Finish => ResetSteps(n)
    case Reset => 0
    case Pending => RunSteps(n)
  }

  function TaskWeight(n: nat, task: Task): nat {
    Missed(task.inputs) * CallSteps(n) + StateWeight(n, task.status, task.place)
  }

  function CallWeights(n: nat, calls: seq<Call>): seq<nat> {
    seq(|calls|, i requires 0 <= i < |calls| => CallWeight(n, calls[i]))
  }

  function WorkerWeights(n: nat, workers: seq<Worker>): seq<nat> {
    seq(|workers|, i requires 0 <= i < |workers| => WorkerWeight(n, workers[i]))
  }

  function TaskWeights(n: nat, tasks: seq<Task>): seq<nat> {
    seq(|tasks|, i requires 0 <= i < |tasks| => TaskWeight(n, tasks[i]))
  }

  // A bound for the steps that are possible without further notifications
  function Remaining(n: nat, s: State): nat {
    Sum(CallWeights(n, s.calls)) + Sum(WorkerWeights(n, s.workers)) + Sum(TaskWeights(n, s.tasks))
  }

  function At(q: seq<nat>, i: nat): nat {
    if i < |q| then q[i] else 0
  }

  // What one call, one worker and one task have left
  function Share(n: nat, s: State, j: nat, w: nat, t: nat): nat {
    At(CallWeights(n, s.calls), j) + At(WorkerWeights(n, s.workers), w) + At(TaskWeights(n, s.tasks), t)
  }

  lemma {:induction false} SumOneChanged(a: seq<nat>, b: seq<nat>, i: nat)
    requires |a| == |b| && forall k :: 0 <= k < |a| && k != i ==> b[k] == a[k]
    ensures Sum(b) + At(a, i) == Sum(a) + At(b, i)
  {
    if i < |a| {
      assert b == a[i := b[i]];
      SumChanged(a, i, b[i]);
    } else {
      assert a == b;
    }
  }

  lemma {:induction false} LocalRemaining(n: nat, s: State, s': State, j: nat, w: nat, t: nat)
    requires Local(s, s', j, w, t)
    ensures Remaining(n, s') + Share(n, s, j, w, t) == Remaining(n, s) + Share(n, s', j, w, t)
  {
    SumOneChanged(CallWeights(n, s.calls), CallWeights(n, s'.calls), j);
    SumOneChanged(WorkerWeights(n, s.workers), WorkerWeights(n, s'.workers), w);
    SumOneChanged(TaskWeights(n, s.tasks), TaskWeights(n, s'.tasks), t);
  }

  ghost predicate Bounded(n: nat, s: State) {
    forall t :: 0 <= t < |s.tasks| ==> |s.tasks[t].inputs| <= n
  }

  ghost predicate Lowers(n: nat, s: State, s': State, j: nat, w: nat, t: nat) {
    Share(n, s', j, w, t) < Share(n, s, j, w, t)
  }

  lemma {:induction false} MissedChanged(a: seq<Input>, p: nat, x: Input)
    requires p < |a|
    ensures Missed(a[p := x]) + a[p].missed == Missed(a) + x.missed
  {
    var b := a[p := x];
    if p == 0 {
      assert b[1..] == a[1..];
    } else {
      assert b[1..] == a[1..][p - 1 := x];
      MissedChanged(a[1..], p - 1, x);
    }
  }

  // A reset that activates the task again uses up a missed notification for the call
  lemma {:induction false} ResetMissed(a: seq<Input>, p: nat, n: nat)
    requires p < |a| && Configured(a[p])
    ensures var b := a[p := InputRules.Reset(a[p])];
      Missed(b) * CallSteps(n) + (if Reactivates(a[p]) then CallSteps(n) else 0) <= Missed(a) * CallSteps(n)
  {
    MissedChanged(a, p, InputRules.Reset(a[p]));
    FewerTimes(Missed(a[p := InputRules.Reset(a[p])]), Missed(a), CallSteps(n));
  }

  lemma {:induction false} CallLowers(n: nat, s: State, a: Action)
    requires Shape(s) && GroupsOk(s) && Bounded(n, s) && Enabled(s, a)
    requires a.Check? || a.Enter? || a.Scan?
    ensures Lowers(n, s, Step(s, a), CallOf(s, a), WorkerOf(s, a), TaskOf(s, a))
  {
    assert CallOk(s, a.j);
  }

  lemma {:induction false} DecideLowers(n: nat, s: State, j: nat)
    requires Shape(s) && Bounded(n, s) && CanDecide(s, j)
    ensures Lowers(n, s, DoDecide(s, j), j, Holder(s, s.calls[j].task), s.calls[j].task)
  {
    assert CallOk(s, j);
  }

  lemma {:induction false} ExecutionLowers(n: nat, s: State, a: Action)
    requires Shape(s) && GroupsOk(s) && Enabled(s, a)
    requires a.Fetch? || a.Begin? || a.Leave? || a.Retire?
    ensures Lowers(n, s, Step(s, a), CallOf(s, a), WorkerOf(s, a), TaskOf(s, a))
  {
    assert WorkerOk(s, a.w) && TaskOk(s, TaskOf(s, a));
  }

  lemma {:induction false} GroupLowers(n: nat, s: State, a: Action)
    requires Shape(s) && GroupsOk(s) && Enabled(s, a) && (a.CheckGroup? || a.Release? || a.StartReset?)
    ensures Lowers(n, s, Step(s, a), CallOf(s, a), WorkerOf(s, a), TaskOf(s, a))
  {
    assert WorkerOk(s, a.w);
    if a.StartReset? {
      assert TaskOk(s, TaskOf(s, a));
    }
  }

  lemma {:induction false} CloseLowers(n: nat, s: State, a: Action)
    requires Shape(s) && Bounded(n, s) && Enabled(s, a) && (a.EndInputs? || a.CloseScan? || a.Close?)
    ensures Lowers(n, s, Step(s, a), CallOf(s, a), WorkerOf(s, a), TaskOf(s, a))
  {
    assert WorkerOk(s, a.w) && TaskOk(s, TaskOf(s, a));
  }

  lemma {:induction false} ResetInputLowers(n: nat, s: State, w: nat)
    requires Shape(s) && Bounded(n, s) && CanResetInput(s, w)
    requires Configured(s.tasks[s.workers[w].todo[0]].inputs[s.workers[w].p])
    ensures Lowers(n, s, DoResetInput(s, w), w, w, s.workers[w].todo[0])
  {
    var t := s.workers[w].todo[0];
    ResetMissed(s.tasks[t].inputs, s.workers[w].p, n);
  }

  lemma {:induction false} StepLowers(n: nat, s: State, a: Action)
    requires Invariant(s) && Bounded(n, s) && Enabled(s, a) && !a.Notify?
    ensures Bounded(n, Step(s, a)) && Remaining(n, Step(s, a)) < Remaining(n, s)
  {
    var j, w, t := CallOf(s, a), WorkerOf(s, a), TaskOf(s, a);
    StepShape(s, a);
    LocalRemaining(n, s, Step(s, a), j, w, t);
    if a.Check? || a.Enter? || a.Scan? {
      CallLowers(n, s, a);
    } else if a.Decide? {
      DecideLowers(n, s, a.j);
    } else if a.Fetch? || a.Begin? || a.Leave? || a.Retire? {
      ExecutionLowers(n, s, a);
    } else if a.ResetInput? {
      assert TaskInvariant(s, t);
      ResetInputLowers(n, s, a.w);
    } else if a.CheckGroup? || a.Release? || a.StartReset? {
      GroupLowers(n, s, a);
    } else {
      CloseLowers(n, s, a);
    }
  }

  // ---- runs

  ghost predicate Internal(run: seq<Action>) {
    forall a :: a in run ==> !a.Notify?
  }

  // The length of the longest array of inputs
  function Widest(tasks: seq<Task>): (n: nat)
    ensures forall t :: 0 <= t < |tasks| ==> |tasks[t].inputs| <= n
  {
    if tasks == [] then 0
    else
      var n := Widest(tasks[1..]);
      assert forall t :: 1 <= t < |tasks| ==> tasks[t] == tasks[1..][t - 1];
      if n < |tasks[0].inputs| then |tasks[0].inputs| else n
  }

  // Without further notifications every run ends
  lemma {:induction false} RunEnds(n: nat, s: State, run: seq<Action>)
    requires Invariant(s) && Bounded(n, s) && RunEnabled(s, run) && Internal(run)
    ensures |run| <= Remaining(n, s)
    decreases |run|
  {
    if run != [] {
      StepLowers(n, s, run[0]);
      StepInvariant(s, run[0]);
      RunEnds(n, Step(s, run[0]), run[1..]);
    }
  }

  lemma {:induction false} RunHeld(s: State, run: seq<Action>)
    requires SyncHeld(s) && RunEnabled(s, run)
    ensures SyncHeld(After(s, run)) && |After(s, run).workers| == |s.workers|
    decreases |run|
  {
    if run != [] {
      StepHeld(s, run[0]);
      RunHeld(Step(s, run[0]), run[1..]);
    }
  }

  lemma {:induction false} QuietStops(s: State)
    requires Quiet(s)
    ensures !CanProceed(s)
  {
  }

  // In every reachable state something goes on exactly until everything is idle
  lemma {:induction false} IdleExactly(s: State, run: seq<Action>)
    requires Initial(s) && RunEnabled(s, run) && 0 < |s.workers|
    ensures CanProceed(After(s, run)) <==> !Quiet(After(s, run))
  {
    InitialInvariant(s);
    RunInvariant(s, run);
    RunHeld(s, run);
    if Quiet(After(s, run)) {
      QuietStops(After(s, run));
    } else {
      NoDeadlock(After(s, run));
    }
  }

  lemma {:induction false} NoNotifications(run: seq<Action>, t: nat, i: nat)
    requires Internal(run)
    ensures Notifications(run, t, i) == 0
    decreases |run|
  {
    if run != [] {
      NoNotifications(run[1..], t, i);
    }
  }

  // What holds of an input after a run and a continuation of it without notifications
  lemma {:induction false} InputKept(s: State, run: seq<Action>, rest: seq<Action>, t: nat, i: nat)
    requires Initial(s) && RunEnabled(s, run) && RunEnabled(After(s, run), rest) && Internal(rest)
    requires t < |s.tasks| && i < |s.tasks[t].inputs|
    ensures var s' := After(After(s, run), rest);
      && Keeps(s, s', t) && s'.tasks[t].inputs[i].received == Notifications(run, t, i)
  {
    InitialInvariant(s);
    RunInvariant(s, run);
    assert Fresh(s.tasks[t].inputs[i]);
    RunReceived(s, run, t, i);
    RunReceived(After(s, run), rest, t, i);
    NoNotifications(rest, t, i);
    KeepsAll(s, After(s, run), After(After(s, run), rest), t);
  }

  lemma {:induction false} StuckIsQuiet(s: State, run: seq<Action>, rest: seq<Action>)
    requires Initial(s) && RunEnabled(s, run) && 0 < |s.workers|
    requires RunEnabled(After(s, run), rest) && !CanProceed(After(After(s, run), rest))
    ensures Invariant(After(After(s, run), rest)) && Quiet(After(After(s, run), rest))
  {
    InitialInvariant(s);
    RunInvariant(s, run);
    RunInvariant(After(s, run), rest);
    RunHeld(s, run);
    RunHeld(After(s, run), rest);
    if !Quiet(After(After(s, run), rest)) {
      NoDeadlock(After(After(s, run), rest));
    }
  }

  // However any run goes on without further notifications, it ends
  lemma {:induction false} EveryRunEnds(s: State, run: seq<Action>, rest: seq<Action>)
    requires Initial(s) && RunEnabled(s, run) && RunEnabled(After(s, run), rest) && Internal(rest)
    ensures |rest| <= Remaining(Widest(After(s, run).tasks), After(s, run))
  {
    InitialInvariant(s);
    RunInvariant(s, run);
    RunEnds(Widest(After(s, run).tasks), After(s, run), rest);
  }

  // And when it cannot go on, every task outside of groups has executed as often as its scarcest input allows
  lemma {:induction false} EveryTaskCompletes(s: State, run: seq<Action>, rest: seq<Action>, t: nat) returns (i: nat)
    requires Initial(s) && RunEnabled(s, run) && 0 < |s.workers| && t < |s.tasks|
    requires AllPlain(s.tasks[t].inputs) && s.tasks[t].inputs != [] && s.tasks[t].group == None
    requires RunEnabled(After(s, run), rest) && Internal(rest) && !CanProceed(After(After(s, run), rest))
    ensures i < |s.tasks[t].inputs| && t < |After(After(s, run), rest).tasks|
    ensures After(After(s, run), rest).tasks[t].executions == Quota(s, run, t, i)
  {
    var s' := After(After(s, run), rest);
    StuckIsQuiet(s, run, rest);
    InputKept(s, run, rest, t, 0);
    StaysPlain(s.tasks[t].inputs, s'.tasks[t].inputs);
    i := Starved(s', t);
    InputKept(s, run, rest, t, i);
  }

  // and every group has been reset as often as the scarcest input of all its members allows
  lemma {:induction false} EveryGroupCompletes(s: State, run: seq<Action>, rest: seq<Action>, g: nat)
    returns (t: nat, i: nat)
    requires Initial(s) && RunEnabled(s, run) && 0 < |s.workers|
    requires g < |s.groups| && s.groups[g] != [] && AllMembersPlain(s, g)
    requires RunEnabled(After(s, run), rest) && Internal(rest) && !CanProceed(After(After(s, run), rest))
    ensures t in s.groups[g] && t < |s.tasks| && i < |s.tasks[t].inputs| && g < |After(After(s, run), rest).epochs|
    ensures After(After(s, run), rest).epochs[g] == Quota(s, run, t, i)
  {
    var s' := After(After(s, run), rest);
    StuckIsQuiet(s, run, rest);
    AttendedLater(s, run, rest, g);
    t := QuietUnattended(s', g);
    assert t in s.groups[g];
    InputKept(s, run, rest, t, 0);
    StaysPlain(s.tasks[t].inputs, s'.tasks[t].inputs);
    i := StarvedWaiting(s', t);
    InputKept(s, run, rest, t, i);
    MemberInStep(s', t, g);
  }

  lemma {:induction false} AttendedLater(s: State, run: seq<Action>, rest: seq<Action>, g: nat)
    requires Initial(s) && RunEnabled(s, run) && RunEnabled(After(s, run), rest) && g < |s.groups|
    ensures After(After(s, run), rest).groups == s.groups && Attended(After(After(s, run), rest), g)
  {
    InitialInvariant(s);
    InitialAttended(s, g);
    RunInvariant(s, run);
    RunAttended(s, run, g);
    RunAttended(After(s, run), rest, g);
  }
}

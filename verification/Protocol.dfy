/**
 * Activation, execution and reset of tasks as interleaved atomic steps of several threads. A step is what a thread does
 * between two points where others can interfere: inside one critical section of an input, or between two reads when the
 * activation of an input array is tested, because notifications do not take the mutex of the task. The owner of a task
 * holds its mutex; sync is the worker that holds the synchronization mutex of the scheduler.
 */
module Protocol {
  import opened Sequences
  import opened InputRules

  datatype Status = Wait | Run | Finish | Reset | Pending

  // Who holds the mutex of a task: a call of activate, or the end of a reset
  datatype Owner = Nobody | ByCall(j: nat) | ByWorker(w: nat)

  // Where a task is between its activation and the end of its reset
  datatype Place = Nowhere | InQueue | With(w: nat)

  datatype Task = Task(status: Status, inputs: seq<Input>, owner: Owner, group: Option<nat>, place: Place,
                       executions: nat)

  // A call of notifyInput, or of activate by the reset of an input: it has counted a notification, is about to call
  // activate, or tests the activation and has read the inputs up to now as seen
  datatype Call =
    | Idle
    | Counted(task: nat, input: nat)
    | Calling(task: nat)
    | Scanning(task: nat, seen: seq<bool>)

  // A worker is free, has fetched a task, executes it, has left it, checks whether its group has finished, or resets
  // the tasks of todo one after the other: all inputs up to p, then with the final test of the activation
  datatype Worker =
    | Free
    | Fetched(task: nat)
    | Executing(task: nat)
    | Leaving(task: nat)
    | Checking(task: nat)
    | Resetting(todo: seq<nat>)
    | ResettingInputs(todo: seq<nat>, p: nat)
    | Closing(todo: seq<nat>, seen: seq<bool>)

  // The calls of activate by the resets of the workers come first, then those of notifiers. The epochs count the resets
  // of the groups.
  datatype State = State(tasks: seq<Task>, groups: seq<seq<nat>>, epochs: seq<nat>, runQueue: seq<nat>,
                         calls: seq<Call>, workers: seq<Worker>, sync: Option<nat>)

  datatype Action =
    | Notify(j: nat, task: nat, input: nat)
    | Check(j: nat)
    | Enter(j: nat)
    | Scan(j: nat)
    | Decide(j: nat)
    | Fetch(w: nat, k: nat)
    | Begin(w: nat)
    | Leave(w: nat)
    | Retire(w: nat)
    | CheckGroup(w: nat)
    | StartReset(w: nat)
    | ResetInput(w: nat)
    | EndInputs(w: nat)
    | CloseScan(w: nat)
    | Close(w: nat)
    | Release(w: nat)

  function SetTask(s: State, t: nat, task: Task): State
    requires t < |s.tasks|
  {
    s.(tasks := s.tasks[t := task])
  }

  function SetCall(s: State, j: nat, call: Call): State
    requires j < |s.calls|
  {
    s.(calls := s.calls[j := call])
  }

  function SetWorker(s: State, w: nat, worker: Worker): State
    requires w < |s.workers|
  {
    s.(workers := s.workers[w := worker])
  }

  // ---- the steps of a call of notifyInput

  predicate CanNotify(s: State, j: nat, t: nat, i: nat) {
    |s.workers| <= j < |s.calls| && s.calls[j] == Idle && t < |s.tasks| && i < |s.tasks[t].inputs|
  }

  function DoNotify(s: State, j: nat, t: nat, i: nat): State
    requires CanNotify(s, j, t, i)
  {
    var input := s.tasks[t].inputs[i];
    var s1 := SetTask(s, t, s.tasks[t].(inputs := s.tasks[t].inputs[i := InputRules.Notify(input)]));
    if CountsAsMissed(input) then s1 else SetCall(s1, j, Counted(t, i))
  }

  predicate CanCheck(s: State, j: nat) {
    j < |s.calls| && s.calls[j].Counted? && s.calls[j].task < |s.tasks| &&
      s.calls[j].input < |s.tasks[s.calls[j].task].inputs|
  }

  function DoCheck(s: State, j: nat): State
    requires CanCheck(s, j)
  {
    var t, i := s.calls[j].task, s.calls[j].input;
    SetCall(s, j, if Activated(s.tasks[t].inputs[i]) then Calling(t) else Idle)
  }

  // ---- the steps of a call of activate, the last three of them inside the task mutex

  predicate CanEnter(s: State, j: nat) {
    j < |s.calls| && s.calls[j].Calling? && s.calls[j].task < |s.tasks| && s.tasks[s.calls[j].task].owner == Nobody
  }

  function DoEnter(s: State, j: nat): State
    requires CanEnter(s, j)
  {
    var t := s.calls[j].task;
    if s.tasks[t].status == Wait || s.tasks[t].status == Status.Reset
    then SetCall(SetTask(s, t, s.tasks[t].(owner := ByCall(j))), j, Scanning(t, []))
    else SetCall(s, j, Idle)
  }

  predicate CanScan(s: State, j: nat) {
    j < |s.calls| && s.calls[j].Scanning? && s.calls[j].task < |s.tasks| &&
      |s.calls[j].seen| < |s.tasks[s.calls[j].task].inputs|
  }

  function DoScan(s: State, j: nat): State
    requires CanScan(s, j)
  {
    var t, seen := s.calls[j].task, s.calls[j].seen;
    SetCall(s, j, Scanning(t, seen + [Activated(s.tasks[t].inputs[|seen|])]))
  }

  predicate CanDecide(s: State, j: nat) {
    j < |s.calls| && s.calls[j].Scanning? && s.calls[j].task < |s.tasks| &&
      |s.calls[j].seen| == |s.tasks[s.calls[j].task].inputs|
  }

  ghost function DoDecide(s: State, j: nat): State
    requires CanDecide(s, j)
  {
    var t, seen := s.calls[j].task, s.calls[j].seen;
    var task := s.tasks[t].(owner := Nobody);
    var s1 := SetCall(s, j, Idle);
    if !Rule(task.inputs, seen) then SetTask(s1, t, task)
    else if task.status == Status.Reset then SetTask(s1, t, task.(status := Pending))
    else SetTask(s1, t, task.(status := Run, place := InQueue)).(runQueue := s.runQueue + [t])
  }

  // ---- the steps of an execution; the policy may pick any task of the run queue

  predicate CanFetch(s: State, w: nat, k: nat) {
    w < |s.workers| && s.workers[w] == Free && k < |s.runQueue| && s.runQueue[k] < |s.tasks|
  }

  function DoFetch(s: State, w: nat, k: nat): State
    requires CanFetch(s, w, k)
  {
    var t := s.runQueue[k];
    SetTask(SetWorker(s, w, Fetched(t)), t, s.tasks[t].(place := With(w)))
      .(runQueue := s.runQueue[..k] + s.runQueue[k + 1..])
  }

  predicate CanBegin(s: State, w: nat) {
    w < |s.workers| && s.workers[w].Fetched? && s.workers[w].task < |s.tasks| && s.sync == None
  }

  function DoBegin(s: State, w: nat): State
    requires CanBegin(s, w)
  {
    var t := s.workers[w].task;
    SetTask(SetWorker(s, w, Executing(t)), t, s.tasks[t].(executions := s.tasks[t].executions + 1))
  }

  predicate CanLeave(s: State, w: nat) {
    w < |s.workers| && s.workers[w].Executing? && s.sync == None
  }

  function DoLeave(s: State, w: nat): State
    requires CanLeave(s, w)
  {
    SetWorker(s, w, Leaving(s.workers[w].task)).(sync := Some(w))
  }

  predicate CanRetire(s: State, w: nat) {
    w < |s.workers| && s.workers[w].Leaving? && s.workers[w].task < |s.tasks| &&
    (s.tasks[s.workers[w].task].group.Some? ==> s.tasks[s.workers[w].task].owner == Nobody)
  }

  function DoRetire(s: State, w: nat): State
    requires CanRetire(s, w)
  {
    var t := s.workers[w].task;
    if s.tasks[t].group == None then SetWorker(s, w, Resetting([t]))
    else SetTask(SetWorker(s, w, Checking(t)), t, s.tasks[t].(status := Finish, place := Nowhere))
  }

  predicate AllExecuted(s: State, g: nat)
    requires g < |s.groups|
  {
    forall k :: 0 <= k < |s.groups[g]| ==> s.groups[g][k] < |s.tasks| && s.tasks[s.groups[g][k]].status == Finish
  }

  predicate CanCheckGroup(s: State, w: nat) {
    w < |s.workers| && s.workers[w].Checking? && s.workers[w].task < |s.tasks| &&
    s.tasks[s.workers[w].task].group.Some? && s.tasks[s.workers[w].task].group.value < |s.groups| == |s.epochs|
  }

  function DoCheckGroup(s: State, w: nat): State
    requires CanCheckGroup(s, w)
  {
    var g := s.tasks[s.workers[w].task].group.value;
    if AllExecuted(s, g) then SetWorker(s, w, Resetting(s.groups[g])).(epochs := s.epochs[g := s.epochs[g] + 1])
    else SetWorker(s, w, Resetting([]))
  }

  // ---- the steps of a reset

  predicate HasHead(s: State, todo: seq<nat>) {
    todo != [] && todo[0] < |s.tasks|
  }

  predicate CanStartReset(s: State, w: nat) {
    w < |s.workers| && s.workers[w].Resetting? && HasHead(s, s.workers[w].todo) &&
      s.tasks[s.workers[w].todo[0]].owner == Nobody
  }

  function DoStartReset(s: State, w: nat): State
    requires CanStartReset(s, w)
  {
    var todo := s.workers[w].todo;
    SetTask(SetWorker(s, w, ResettingInputs(todo, 0)), todo[0],
            s.tasks[todo[0]].(status := Status.Reset, place := With(w)))
  }

  predicate CanResetInput(s: State, w: nat) {
    w < |s.workers| <= |s.calls| && s.workers[w].ResettingInputs? && s.calls[w] == Idle &&
    HasHead(s, s.workers[w].todo) &&
    s.workers[w].p < |s.tasks[s.workers[w].todo[0]].inputs|
  }

  function DoResetInput(s: State, w: nat): State
    requires CanResetInput(s, w)
  {
    var t, p := s.workers[w].todo[0], s.workers[w].p;
    var input := s.tasks[t].inputs[p];
    var s1 := SetTask(SetWorker(s, w, ResettingInputs(s.workers[w].todo, p + 1)), t,
                      s.tasks[t].(inputs := s.tasks[t].inputs[p := InputRules.Reset(input)]));
    if Reactivates(input) then SetCall(s1, w, Calling(t)) else s1
  }

  predicate CanEndInputs(s: State, w: nat) {
    w < |s.workers| <= |s.calls| && s.workers[w].ResettingInputs? && s.calls[w] == Idle &&
    HasHead(s, s.workers[w].todo) &&
    s.workers[w].p == |s.tasks[s.workers[w].todo[0]].inputs| && s.tasks[s.workers[w].todo[0]].owner == Nobody
  }

  function DoEndInputs(s: State, w: nat): State
    requires CanEndInputs(s, w)
  {
    var todo := s.workers[w].todo;
    if s.tasks[todo[0]].status == Pending
    then SetTask(SetWorker(s, w, Closing(todo, [])), todo[0], s.tasks[todo[0]].(owner := ByWorker(w)))
    else SetTask(SetWorker(s, w, Resetting(todo[1..])), todo[0], s.tasks[todo[0]].(status := Wait, place := Nowhere))
  }

  predicate CanCloseScan(s: State, w: nat) {
    w < |s.workers| && s.workers[w].Closing? && HasHead(s, s.workers[w].todo) &&
    |s.workers[w].seen| < |s.tasks[s.workers[w].todo[0]].inputs|
  }

  function DoCloseScan(s: State, w: nat): State
    requires CanCloseScan(s, w)
  {
    var todo, seen := s.workers[w].todo, s.workers[w].seen;
    SetWorker(s, w, Closing(todo, seen + [Activated(s.tasks[todo[0]].inputs[|seen|])]))
  }

  predicate CanClose(s: State, w: nat) {
    w < |s.workers| && s.workers[w].Closing? && HasHead(s, s.workers[w].todo) &&
    |s.workers[w].seen| == |s.tasks[s.workers[w].todo[0]].inputs|
  }

  ghost function DoClose(s: State, w: nat): State
    requires CanClose(s, w)
  {
    var todo, seen := s.workers[w].todo, s.workers[w].seen;
    var task := s.tasks[todo[0]].(owner := Nobody);
    var s1 := SetWorker(s, w, Resetting(todo[1..]));
    if Rule(task.inputs, seen)
      then SetTask(s1, todo[0], task.(status := Run, place := InQueue)).(runQueue := s.runQueue + [todo[0]])
    else SetTask(s1, todo[0], task.(status := Wait, place := Nowhere))
  }

  predicate CanRelease(s: State, w: nat) {
    w < |s.workers| && s.workers[w] == Resetting([])
  }

  function DoRelease(s: State, w: nat): State
    requires CanRelease(s, w)
  {
    SetWorker(s, w, Free).(sync := None)
  }

  // ---- runs

  predicate Enabled(s: State, a: Action) {
    match a
    case Notify(j, t, i) => CanNotify(s, j, t, i)
    case Check(j) => CanCheck(s, j)
    case Enter(j) => CanEnter(s, j)
    case Scan(j) => CanScan(s, j)
    case Decide(j) => CanDecide(s, j)
    case Fetch(w, k) => CanFetch(s, w, k)
    case Begin(w) => CanBegin(s, w)
    case Leave(w) => CanLeave(s, w)
    case Retire(w) => CanRetire(s, w)
    case CheckGroup(w) => CanCheckGroup(s, w)
    case StartReset(w) => CanStartReset(s, w)
    case ResetInput(w) => CanResetInput(s, w)
    case EndInputs(w) => CanEndInputs(s, w)
    case CloseScan(w) => CanCloseScan(s, w)
    case Close(w) => CanClose(s, w)
    case Release(w) => CanRelease(s, w)
  }

  ghost function Step(s: State, a: Action): State
    requires Enabled(s, a)
  {
    match a
    case Notify(j, t, i) => DoNotify(s, j, t, i)
    case Check(j) => DoCheck(s, j)
    case Enter(j) => DoEnter(s, j)
    case Scan(j) => DoScan(s, j)
    case Decide(j) => DoDecide(s, j)
    case Fetch(w, k) => DoFetch(s, w, k)
    case Begin(w) => DoBegin(s, w)
    case Leave(w) => DoLeave(s, w)
    case Retire(w) => DoRetire(s, w)
    case CheckGroup(w) => DoCheckGroup(s, w)
    case StartReset(w) => DoStartReset(s, w)
    case ResetInput(w) => DoResetInput(s, w)
    case EndInputs(w) => DoEndInputs(s, w)
    case CloseScan(w) => DoCloseScan(s, w)
    case Close(w) => DoClose(s, w)
    case Release(w) => DoRelease(s, w)
  }

  ghost predicate RunEnabled(s: State, run: seq<Action>)
    decreases |run|
  {
    run == [] || (Enabled(s, run[0]) && RunEnabled(Step(s, run[0]), run[1..]))
  }

  ghost function After(s: State, run: seq<Action>): State
    requires RunEnabled(s, run)
    decreases |run|
  {
    if run == [] then s else After(Step(s, run[0]), run[1..])
  }
}

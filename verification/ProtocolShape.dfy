/** Who holds which task and which mutex, in every reachable state. */
module ProtocolShape {
  import opened Sequences
  import opened InputRules
  import opened Protocol

  // The task that a worker holds between fetching it and the end of its reset
  ghost predicate Holds(worker: Worker, t: nat) {
    match worker
    case Fetched(u) => u == t
    case Executing(u) => u == t
    case Leaving(u) => u == t
    case Resetting(todo) => todo == [t]
    case ResettingInputs(todo, _) => todo != [] && todo[0] == t
    case Closing(todo, _) => todo != [] && todo[0] == t
    case _ => false
  }

  ghost predicate InReset(worker: Worker, t: nat) {
    (worker.ResettingInputs? || worker.Closing?) && worker.todo != [] && worker.todo[0] == t
  }

  ghost predicate InSync(worker: Worker) {
    !worker.Free? && !worker.Fetched? && !worker.Executing?
  }

  ghost predicate CallOk(s: State, j: nat)
    requires j < |s.calls|
  {
    && (match s.calls[j]
        case Idle => true
        case Counted(t, i) => t < |s.tasks| && i < |s.tasks[t].inputs|
        case Calling(t) => t < |s.tasks|
        case Scanning(t, seen) =>
          && t < |s.tasks| && s.tasks[t].owner == ByCall(j) && |seen| <= |s.tasks[t].inputs|
          && (s.tasks[t].status == Wait || s.tasks[t].status == Status.Reset))
    && (s.calls[j] != Idle && j < |s.workers| ==>
          s.workers[j].ResettingInputs? && s.workers[j].todo != [] && s.calls[j].task == s.workers[j].todo[0])
  }

  ghost predicate HeldBy(s: State, t: nat, w: nat) {
    t < |s.tasks| && s.tasks[t].place == With(w)
  }

  ghost predicate Waiting(s: State, todo: seq<nat>, from: nat) {
    && (forall k :: from <= k < |todo| ==> todo[k] < |s.tasks| && s.tasks[todo[k]].status == Finish)
    && NoDup(todo)
  }

  ghost predicate WorkerOk(s: State, w: nat)
    requires w < |s.workers|
  {
    && (InSync(s.workers[w]) <==> s.sync == Some(w))
    && match s.workers[w]
       case Free => true
       case Fetched(t) => HeldBy(s, t, w) && s.tasks[t].status == Run
       case Executing(t) => HeldBy(s, t, w) && s.tasks[t].status == Run
       case Leaving(t) => HeldBy(s, t, w) && s.tasks[t].status == Run
       case Checking(t) => t < |s.tasks| && s.tasks[t].group.Some? && s.tasks[t].status == Finish
       case Resetting(todo) =>
         || Waiting(s, todo, 0)
         || (|todo| == 1 && HeldBy(s, todo[0], w) && s.tasks[todo[0]].status == Run && s.tasks[todo[0]].group == None)
       case ResettingInputs(todo, p) =>
         && todo != [] && HeldBy(s, todo[0], w) && Waiting(s, todo, 1)
         && (s.tasks[todo[0]].status == Status.Reset || s.tasks[todo[0]].status == Pending) &&
           p <= |s.tasks[todo[0]].inputs|
       case Closing(todo, seen) =>
         && todo != [] && HeldBy(s, todo[0], w) && Waiting(s, todo, 1)
         && s.tasks[todo[0]].status == Pending && s.tasks[todo[0]].owner == ByWorker(w) &&
           |seen| <= |s.tasks[todo[0]].inputs|
  }

  ghost predicate TaskOk(s: State, t: nat)
    requires t < |s.tasks|
  {
    var task := s.tasks[t];
    && (match task.owner
        case Nobody => true
        case ByCall(j) => j < |s.calls| && s.calls[j].Scanning? && s.calls[j].task == t
        case ByWorker(w) =>
          w < |s.workers| && s.workers[w].Closing? && s.workers[w].todo != [] && s.workers[w].todo[0] == t)
    && (match task.place
        case Nowhere => task.status == Wait || task.status == Finish
        case InQueue => task.status == Run && t in s.runQueue
        case With(w) =>
          && w < |s.workers| && Holds(s.workers[w], t)
          && if InReset(s.workers[w], t) then task.status == Status.Reset || task.status == Pending
             else task.status == Run)
  }

  ghost predicate QueueOk(s: State) {
    && (forall k :: 0 <= k < |s.runQueue| ==> s.runQueue[k] < |s.tasks| && s.tasks[s.runQueue[k]].place == InQueue)
    && NoDup(s.runQueue)
  }

  // The groups partition the tasks that joined one
  ghost predicate GroupsOk(s: State) {
    && |s.epochs| == |s.groups|
    && (forall g :: 0 <= g < |s.groups| ==> NoDup(s.groups[g]))
    && (forall g, k :: 0 <= g < |s.groups| && 0 <= k < |s.groups[g]| ==>
          s.groups[g][k] < |s.tasks| && s.tasks[s.groups[g][k]].group == Some(g))
    && (forall t :: 0 <= t < |s.tasks| && s.tasks[t].group.Some? ==>
      s.tasks[t].group.value < |s.groups| && t in s.groups[s.tasks[t].group.value])
  }

  ghost predicate Shape(s: State) {
    && |s.workers| <= |s.calls|
    && (forall j {:trigger CallOk(s, j)} :: 0 <= j < |s.calls| ==> CallOk(s, j))
    && (forall w {:trigger WorkerOk(s, w)} :: 0 <= w < |s.workers| ==> WorkerOk(s, w))
    && (forall t {:trigger TaskOk(s, t)} :: 0 <= t < |s.tasks| ==> TaskOk(s, t))
    && QueueOk(s)
  }

  // What the other calls and workers rely on is unchanged
  ghost predicate Kept(task: Task, task': Task, j: nat, w: nat) {
    && |task'.inputs| == |task.inputs| && task'.group == task.group
    && (task.owner.ByCall? && task.owner.j != j ==> task'.owner == task.owner && task'.status == task.status)
    && (task.place.With? && task.place.w != w ==>
      task'.place == task.place && task'.status == task.status && task'.owner == task.owner)
  }

  // The step from s to s' touches at most the call j, the worker w and the task t, keeps the shape of these three
  // and takes nothing away from the others
  ghost predicate Local(s: State, s': State, j: nat, w: nat, t: nat) {
    && |s'.calls| == |s.calls| && |s'.workers| == |s.workers| && |s'.tasks| == |s.tasks|
    && (forall k :: 0 <= k < |s.calls| && k != j ==> s'.calls[k] == s.calls[k])
    && (forall k :: 0 <= k < |s.workers| && k != w ==> s'.workers[k] == s.workers[k])
    && (forall k :: 0 <= k < |s.tasks| && k != t ==> s'.tasks[k] == s.tasks[k])
    && (forall k :: k in s.runQueue && k != t ==> k in s'.runQueue)
    && (j < |s.calls| ==> CallOk(s', j))
    && (w < |s.workers| <= |s.calls| ==> CallOk(s', w) && WorkerOk(s', w))
    && (t < |s.tasks| ==> TaskOk(s', t) && Kept(s.tasks[t], s'.tasks[t], j, w))
    && (t < |s.tasks| && s.tasks[t].status == Finish && s'.tasks[t].status != Finish ==> s.sync == Some(w))
    && (s'.sync == s.sync || (s.sync in {None, Some(w)} && s'.sync in {None, Some(w)}))
    && (j < |s.calls| && s.calls[j].Scanning? && s.calls[j].task != t ==> s'.calls[j] == s.calls[j])
    && (w < |s.workers| && s'.workers[w] != s.workers[w] ==> forall u :: Holds(s.workers[w], u) ==> u == t)
  }

  lemma {:induction false} LocalCalls(s: State, s': State, j: nat, w: nat, t: nat)
    requires Shape(s) && Local(s, s', j, w, t)
    ensures forall k :: 0 <= k < |s'.calls| ==> CallOk(s', k)
  {
    forall k | 0 <= k < |s'.calls| ensures CallOk(s', k) { assert CallOk(s, k); }
  }

  lemma {:induction false} LocalWorkers(s: State, s': State, j: nat, w: nat, t: nat)
    requires Shape(s) && Local(s, s', j, w, t)
    ensures forall k :: 0 <= k < |s'.workers| ==> WorkerOk(s', k)
  {
    forall k | 0 <= k < |s'.workers| ensures WorkerOk(s', k) { assert WorkerOk(s, k); }
  }

  lemma {:induction false} LocalTasks(s: State, s': State, j: nat, w: nat, t: nat)
    requires Shape(s) && Local(s, s', j, w, t)
    ensures forall k :: 0 <= k < |s'.tasks| ==> TaskOk(s', k)
  {
    forall k | 0 <= k < |s'.tasks| ensures TaskOk(s', k) {
      assert TaskOk(s, k);
      assert w < |s.workers| && Holds(s.workers[w], k) ==> k == t || s'.workers[w] == s.workers[w];
    }
  }

  lemma {:induction false} LocalStep(s: State, s': State, j: nat, w: nat, t: nat)
    requires Shape(s) && Local(s, s', j, w, t) && QueueOk(s')
    ensures Shape(s')
  {
    LocalCalls(s, s', j, w, t);
    LocalWorkers(s, s', j, w, t);
    LocalTasks(s, s', j, w, t);
  }

  // The worker that holds t, or none
  function Holder(s: State, t: nat): nat
    requires t < |s.tasks|
  {
    if s.tasks[t].place.With? then s.tasks[t].place.w else |s.workers|
  }

  lemma {:induction false} NotifyLocal(s: State, j: nat, t: nat, i: nat)
    requires Shape(s) && CanNotify(s, j, t, i)
    ensures QueueOk(DoNotify(s, j, t, i))
    ensures Local(s, DoNotify(s, j, t, i), j, |s.workers|, t)
  {
    assert CallOk(s, j) && TaskOk(s, t);
  }

  lemma {:induction false} CheckLocal(s: State, j: nat)
    requires Shape(s) && CanCheck(s, j)
    ensures QueueOk(DoCheck(s, j))
    ensures Local(s, DoCheck(s, j), j, |s.workers|, s.calls[j].task)
  {
    assert CallOk(s, j) && TaskOk(s, s.calls[j].task);
  }

  lemma {:induction false} EnterLocal(s: State, j: nat)
    requires Shape(s) && CanEnter(s, j)
    ensures QueueOk(DoEnter(s, j))
    ensures Local(s, DoEnter(s, j), j, Holder(s, s.calls[j].task), s.calls[j].task)
  {
    var t := s.calls[j].task;
    var w := Holder(s, t);
    assert CallOk(s, j) && TaskOk(s, t);
    assert w < |s.workers| ==> WorkerOk(s, w) && CallOk(s, w);
  }

  lemma {:induction false} ScanLocal(s: State, j: nat)
    requires Shape(s) && CanScan(s, j)
    ensures QueueOk(DoScan(s, j))
    ensures Local(s, DoScan(s, j), j, |s.workers|, s.calls[j].task)
  {
    assert CallOk(s, j) && TaskOk(s, s.calls[j].task);
  }

  // A call that finds the inputs not activated, or the task in its reset
  lemma {:induction false} UndecidedLocal(s: State, j: nat)
    requires Shape(s) && CanDecide(s, j)
    requires s.tasks[s.calls[j].task].status == Wait ==> !Rule(s.tasks[s.calls[j].task].inputs, s.calls[j].seen)
    ensures QueueOk(DoDecide(s, j))
    ensures Local(s, DoDecide(s, j), j, Holder(s, s.calls[j].task), s.calls[j].task)
  {
    var t := s.calls[j].task;
    var w := Holder(s, t);
    assert CallOk(s, j) && TaskOk(s, t);
    assert w < |s.workers| ==> WorkerOk(s, w) && CallOk(s, w);
  }

  // A call that makes a waiting task run
  lemma {:induction false} ActivatedLocal(s: State, j: nat)
    requires Shape(s) && CanDecide(s, j)
    requires s.tasks[s.calls[j].task].status == Wait && Rule(s.tasks[s.calls[j].task].inputs, s.calls[j].seen)
    ensures QueueOk(DoDecide(s, j))
    ensures Local(s, DoDecide(s, j), j, Holder(s, s.calls[j].task), s.calls[j].task)
  {
    var t := s.calls[j].task;
    assert CallOk(s, j) && TaskOk(s, t);
    QueueShape(s, t);
  }

  lemma {:induction false} DecideLocal(s: State, j: nat)
    requires Shape(s) && CanDecide(s, j)
    ensures QueueOk(DoDecide(s, j))
    ensures Local(s, DoDecide(s, j), j, Holder(s, s.calls[j].task), s.calls[j].task)
  {
    if s.tasks[s.calls[j].task].status == Wait && Rule(s.tasks[s.calls[j].task].inputs, s.calls[j].seen) {
      ActivatedLocal(s, j);
    } else {
      UndecidedLocal(s, j);
    }
  }

  // A task that is not queued can be appended to the run queue
  lemma {:induction false} QueueShape(s: State, t: nat)
    requires Shape(s) && t < |s.tasks| && s.tasks[t].place != InQueue
    ensures NoDup(s.runQueue + [t])
    ensures forall k :: 0 <= k < |s.runQueue| ==> s.runQueue[k] != t
  {
    NoDupAppended(s.runQueue, t);
  }

  lemma {:induction false} FetchLocal(s: State, w: nat, k: nat)
    requires Shape(s) && CanFetch(s, w, k)
    ensures QueueOk(DoFetch(s, w, k))
    ensures Local(s, DoFetch(s, w, k), |s.calls|, w, s.runQueue[k])
  {
    var t, s' := s.runQueue[k], DoFetch(s, w, k);
    assert CallOk(s, w) && WorkerOk(s, w) && TaskOk(s, t);
    assert RemovesAt(s.runQueue, k, s'.runQueue);
    NoDupRemoved(s.runQueue, k, s'.runQueue);
    NoDupFrom(s.runQueue, k);
  }

  lemma {:induction false} BeginLocal(s: State, w: nat)
    requires Shape(s) && CanBegin(s, w)
    ensures QueueOk(DoBegin(s, w))
    ensures Local(s, DoBegin(s, w), |s.calls|, w, s.workers[w].task)
  {
    assert CallOk(s, w) && WorkerOk(s, w) && TaskOk(s, s.workers[w].task);
  }

  lemma {:induction false} LeaveLocal(s: State, w: nat)
    requires Shape(s) && CanLeave(s, w)
    ensures QueueOk(DoLeave(s, w))
    ensures Local(s, DoLeave(s, w), |s.calls|, w, s.workers[w].task)
  {
    assert CallOk(s, w) && WorkerOk(s, w) && TaskOk(s, s.workers[w].task);
  }

  lemma {:induction false} RetireLocal(s: State, w: nat)
    requires Shape(s) && CanRetire(s, w)
    ensures QueueOk(DoRetire(s, w))
    ensures Local(s, DoRetire(s, w), |s.calls|, w, s.workers[w].task)
  {
    assert CallOk(s, w) && WorkerOk(s, w) && TaskOk(s, s.workers[w].task);
  }

  lemma {:induction false} CheckGroupLocal(s: State, w: nat)
    requires Shape(s) && GroupsOk(s) && CanCheckGroup(s, w)
    ensures QueueOk(DoCheckGroup(s, w))
    ensures Local(s, DoCheckGroup(s, w), |s.calls|, w, |s.tasks|)
  {
    assert CallOk(s, w) && WorkerOk(s, w);
  }

  lemma {:induction false} StartResetLocal(s: State, w: nat)
    requires Shape(s) && CanStartReset(s, w)
    ensures QueueOk(DoStartReset(s, w))
    ensures Local(s, DoStartReset(s, w), |s.calls|, w, s.workers[w].todo[0])
  {
    var t := s.workers[w].todo[0];
    assert CallOk(s, w) && WorkerOk(s, w) && TaskOk(s, t);
    if Waiting(s, s.workers[w].todo, 0) {
      NoDupFrom(s.workers[w].todo, 0);
    }
  }

  // A step that changes no place keeps the run queue right
  lemma {:induction false} SamePlaces(s: State, s': State)
    requires QueueOk(s) && s'.runQueue == s.runQueue && |s'.tasks| == |s.tasks|
    requires forall t :: 0 <= t < |s.tasks| ==> s'.tasks[t].place == s.tasks[t].place
    ensures QueueOk(s')
  {
  }

  lemma {:induction false} ResetInputTouches(s: State, w: nat)
    requires Shape(s) && CanResetInput(s, w)
    ensures CallOk(DoResetInput(s, w), w) && WorkerOk(DoResetInput(s, w), w)
    ensures TaskOk(DoResetInput(s, w), s.workers[w].todo[0])
  {
    assert CallOk(s, w) && WorkerOk(s, w) && TaskOk(s, s.workers[w].todo[0]);
  }

  lemma {:induction false} ResetInputLocal(s: State, w: nat)
    requires Shape(s) && CanResetInput(s, w)
    ensures QueueOk(DoResetInput(s, w))
    ensures Local(s, DoResetInput(s, w), w, w, s.workers[w].todo[0])
  {
    var s' := DoResetInput(s, w);
    ResetInputTouches(s, w);
    assert WorkerOk(s, w);
    SamePlaces(s, s');
  }

  // The rest of a list of finished tasks
  lemma {:induction false} WaitingRest(s: State, todo: seq<nat>)
    requires todo != [] && Waiting(s, todo, 1)
    ensures Waiting(s, todo[1..], 0) && todo[0] !in todo[1..]
  {
    assert RemovesAt(todo, 0, todo[1..]);
    NoDupRemoved(todo, 0, todo[1..]);
  }

  lemma {:induction false} EndInputsLocal(s: State, w: nat)
    requires Shape(s) && CanEndInputs(s, w)
    ensures QueueOk(DoEndInputs(s, w))
    ensures Local(s, DoEndInputs(s, w), |s.calls|, w, s.workers[w].todo[0])
  {
    var t := s.workers[w].todo[0];
    assert CallOk(s, w) && WorkerOk(s, w) && TaskOk(s, t);
    WaitingRest(s, s.workers[w].todo);
  }

  lemma {:induction false} CloseScanLocal(s: State, w: nat)
    requires Shape(s) && CanCloseScan(s, w)
    ensures QueueOk(DoCloseScan(s, w))
    ensures Local(s, DoCloseScan(s, w), |s.calls|, w, s.workers[w].todo[0])
  {
    var t := s.workers[w].todo[0];
    assert CallOk(s, w) && WorkerOk(s, w) && TaskOk(s, t);
  }

  lemma {:induction false} CloseLocal(s: State, w: nat)
    requires Shape(s) && CanClose(s, w)
    ensures QueueOk(DoClose(s, w))
    ensures Local(s, DoClose(s, w), |s.calls|, w, s.workers[w].todo[0])
  {
    var t := s.workers[w].todo[0];
    assert CallOk(s, w) && WorkerOk(s, w) && TaskOk(s, t);
    WaitingRest(s, s.workers[w].todo);
    QueueShape(s, t);
  }

  lemma {:induction false} ReleaseLocal(s: State, w: nat)
    requires Shape(s) && CanRelease(s, w)
    ensures QueueOk(DoRelease(s, w))
    ensures Local(s, DoRelease(s, w), |s.calls|, w, |s.tasks|)
  {
    assert CallOk(s, w) && WorkerOk(s, w);
  }

  // ---- every step: the call, the worker and the task it touches

  function CallOf(s: State, a: Action): nat
    requires Enabled(s, a)
  {
    match a
    case Notify(j, _, _) => j
    case Check(j) => j
    case Enter(j) => j
    case Scan(j) => j
    case Decide(j) => j
    case ResetInput(w) => w
    case _ => |s.calls|
  }

  function TaskOf(s: State, a: Action): nat
    requires Enabled(s, a)
  {
    match a
    case Notify(_, t, _) => t
    case Check(j) => s.calls[j].task
    case Enter(j) => s.calls[j].task
    case Scan(j) => s.calls[j].task
    case Decide(j) => s.calls[j].task
    case Fetch(_, k) => s.runQueue[k]
    case Begin(w) => s.workers[w].task
    case Leave(w) => s.workers[w].task
    case Retire(w) => s.workers[w].task
    case CheckGroup(_) => |s.tasks|
    case StartReset(w) => s.workers[w].todo[0]
    case ResetInput(w) => s.workers[w].todo[0]
    case EndInputs(w) => s.workers[w].todo[0]
    case CloseScan(w) => s.workers[w].todo[0]
    case Close(w) => s.workers[w].todo[0]
    case Release(_) => |s.tasks|
  }

  function WorkerOf(s: State, a: Action): nat
    requires Enabled(s, a)
  {
    match a
    case Notify(_, _, _) => |s.workers|
    case Check(_) => |s.workers|
    case Enter(j) => Holder(s, s.calls[j].task)
    case Scan(_) => |s.workers|
    case Decide(j) => Holder(s, s.calls[j].task)
    case _ => a.w
  }

  lemma {:induction false} StepLocal(s: State, a: Action)
    requires Shape(s) && GroupsOk(s) && Enabled(s, a)
    ensures QueueOk(Step(s, a))
    ensures Local(s, Step(s, a), CallOf(s, a), WorkerOf(s, a), TaskOf(s, a))
  {
    match a
    case Notify(j, t, i) => NotifyLocal(s, j, t, i);
    case Check(j) => CheckLocal(s, j);
    case Enter(j) => EnterLocal(s, j);
    case Scan(j) => ScanLocal(s, j);
    case Decide(j) => DecideLocal(s, j);
    case Fetch(w, k) => FetchLocal(s, w, k);
    case Begin(w) => BeginLocal(s, w);
    case Leave(w) => LeaveLocal(s, w);
    case Retire(w) => RetireLocal(s, w);
    case CheckGroup(w) => CheckGroupLocal(s, w);
    case StartReset(w) => StartResetLocal(s, w);
    case ResetInput(w) => ResetInputLocal(s, w);
    case EndInputs(w) => EndInputsLocal(s, w);
    case CloseScan(w) => CloseScanLocal(s, w);
    case Close(w) => CloseLocal(s, w);
    case Release(w) => ReleaseLocal(s, w);
  }

  lemma {:induction false} StepShape(s: State, a: Action)
    requires Shape(s) && GroupsOk(s) && Enabled(s, a)
    ensures Shape(Step(s, a))
    ensures Local(s, Step(s, a), CallOf(s, a), WorkerOf(s, a), TaskOf(s, a))
  {
    StepLocal(s, a);
    LocalStep(s, Step(s, a), CallOf(s, a), WorkerOf(s, a), TaskOf(s, a));
  }

  // While a worker holds the synchronization mutex it alone retires and resets, and no task begins or leaves its
  // execution
  lemma {:induction false} SyncExcludes(s: State, a: Action)
    requires Shape(s) && Enabled(s, a) && s.sync.Some?
    requires !a.Notify? && !a.Check? && !a.Enter? && !a.Scan? && !a.Decide? && !a.Fetch?
    ensures a.w == s.sync.value && !a.Begin? && !a.Leave?
  {
    assert WorkerOk(s, a.w);
  }

  // The configuration of an input never changes
  ghost predicate SameConfiguration(a: seq<Input>, b: seq<Input>) {
    && |a| == |b|
    && forall i :: 0 <= i < |a| ==>
      a[i].threshold == b[i].threshold && a[i].final == b[i].final && a[i].synchron == b[i].synchron
  }

  lemma {:induction false} StepConfiguration(s: State, a: Action, t: nat)
    requires Shape(s) && GroupsOk(s) && Enabled(s, a) && t < |s.tasks|
    ensures var s' := Step(s, a); t < |s'.tasks| && SameConfiguration(s.tasks[t].inputs, s'.tasks[t].inputs)
  {
    StepShape(s, a);
    var inputs, inputs' := s.tasks[t].inputs, Step(s, a).tasks[t].inputs;
    if t == TaskOf(s, a) && (a.Notify? || a.ResetInput?) {
      var i := if a.Notify? then a.input else s.workers[a.w].p;
      assert forall k :: 0 <= k < |inputs| && k != i ==> inputs'[k] == inputs[k];
    } else {
      SameInputs(s, a, t);
    }
  }

  // Only notifications and resets change inputs
  lemma {:induction false} SameInputs(s: State, a: Action, t: nat)
    requires Shape(s) && GroupsOk(s) && Enabled(s, a) && t < |s.tasks| &&
      (t == TaskOf(s, a) ==> !a.Notify? && !a.ResetInput?)
    ensures Step(s, a).tasks[t].inputs == s.tasks[t].inputs
  {
    StepShape(s, a);
  }

  lemma {:induction false} SameGroups(s: State, a: Action)
    requires Enabled(s, a)
    ensures Step(s, a).groups == s.groups && |Step(s, a).epochs| == |s.epochs|
  {
  }

  lemma {:induction false} GroupsStay(s: State, s': State)
    requires GroupsOk(s) && s'.groups == s.groups && |s'.epochs| == |s.epochs| && |s'.tasks| == |s.tasks|
    requires forall t :: 0 <= t < |s.tasks| ==> s'.tasks[t].group == s.tasks[t].group
    ensures GroupsOk(s')
  {
  }

  lemma {:induction false} StepGroups(s: State, a: Action)
    requires Shape(s) && GroupsOk(s) && Enabled(s, a)
    ensures GroupsOk(Step(s, a))
  {
    var s', u := Step(s, a), TaskOf(s, a);
    StepShape(s, a);
    SameGroups(s, a);
    forall t | 0 <= t < |s.tasks| ensures s'.tasks[t].group == s.tasks[t].group {
      assert t != u ==> s'.tasks[t] == s.tasks[t];
    }
    GroupsStay(s, s');
  }
}

/** Notifications, resets and executions are counted exactly, whatever the interleaving. */
module ProtocolCounting {
  import opened Sequences
  import opened InputRules
  import opened Protocol
  import opened ProtocolShape

  // The task has executed since input i was reset
  ghost predicate Lags(s: State, t: nat, i: nat)
    requires t < |s.tasks|
  {
    var task := s.tasks[t];
    match task.place
    case Nowhere => task.status == Finish
    case InQueue => false
    case With(w) =>
      w < |s.workers| &&
      match s.workers[w]
      case Executing(_) => true
      case Leaving(_) => true
      case Resetting(_) => true
      case ResettingInputs(_, p) => p <= i
      case _ => false
  }

  // The activation of input i has led, or leads, to an execution
  ghost predicate Armed(s: State, t: nat, i: nat)
    requires t < |s.tasks|
  {
    var place := s.tasks[t].place;
    place.InQueue? || (place.With? && place.w < |s.workers| && s.workers[place.w].Fetched?) || Lags(s, t, i)
  }

  // What has been read is still so
  ghost predicate Sound(seen: seq<bool>, inputs: seq<Input>) {
    forall i :: 0 <= i < |seen| && i < |inputs| && seen[i] ==> Activated(inputs[i])
  }

  // The tasks a worker still has to reset
  function Todo(worker: Worker): seq<nat> {
    match worker
    case Resetting(todo) => todo
    case ResettingInputs(todo, _) => todo
    case Closing(todo, _) => todo
    case _ => []
  }

  // The task waits for its reset in the worker that holds the synchronization mutex
  predicate DueForReset(s: State, t: nat) {
    s.sync.Some? && s.sync.value < |s.workers| && t in Todo(s.workers[s.sync.value])
  }

  ghost predicate RoundsOk(s: State, t: nat)
    requires t < |s.tasks|
  {
    forall i :: 0 <= i < |s.tasks[t].inputs| ==>
      s.tasks[t].inputs[i].rounds + (if Lags(s, t, i) then 1 else 0) == s.tasks[t].executions
  }

  // A group reset has to come between two executions of a member
  ghost predicate EpochOk(s: State, t: nat)
    requires t < |s.tasks|
  {
    match s.tasks[t].group
    case None => s.tasks[t].status != Finish
    case Some(g) =>
      g < |s.epochs| && s.tasks[t].executions == s.epochs[g] + (if Executed(s, t) then 1 else 0)
  }

  // A member that has executed since the last group reset
  ghost predicate Executed(s: State, t: nat)
    requires t < |s.tasks|
  {
    var place := s.tasks[t].place;
    if s.tasks[t].status == Finish then !DueForReset(s, t)
    else place.With? && place.w < |s.workers| && (s.workers[place.w].Executing? || s.workers[place.w].Leaving?)
  }

  ghost predicate PlainOk(s: State, t: nat)
    requires t < |s.tasks|
  {
    var task := s.tasks[t];
    AllPlain(task.inputs) ==>
      && (forall i :: 0 <= i < |task.inputs| ==>
        Balanced(task.inputs[i]) && (Armed(s, t, i) ==> Activated(task.inputs[i])))
      && (match task.owner
          case Nobody => true
          case ByCall(j) =>
            j < |s.calls| && s.calls[j].Scanning? && task.status == Wait ==> Sound(s.calls[j].seen, task.inputs)
          case ByWorker(w) => w < |s.workers| && s.workers[w].Closing? ==> Sound(s.workers[w].seen, task.inputs))
  }

  ghost predicate Counts(s: State, t: nat)
    requires t < |s.tasks|
  {
    RoundsOk(s, t) && EpochOk(s, t) && PlainOk(s, t)
  }

  // ---- tasks that a step does not touch

  // The synchronization mutex and the lists of its holder change by the steps of workers only
  lemma {:induction false} DueByCalls(s: State, a: Action, u: nat)
    requires Enabled(s, a) && (a.Notify? || a.Check? || a.Enter? || a.Scan? || a.Decide?)
    ensures DueForReset(Step(s, a), u) == DueForReset(s, u)
  {
    assert Step(s, a).sync == s.sync && Step(s, a).workers == s.workers;
  }

  lemma {:induction false} DueByWorkers(s: State, a: Action, u: nat)
    requires Shape(s) && Enabled(s, a) && u < |s.tasks| && u != TaskOf(s, a) && !a.CheckGroup?
    requires !a.Notify? && !a.Check? && !a.Enter? && !a.Scan? && !a.Decide?
    ensures DueForReset(Step(s, a), u) == DueForReset(s, u)
  {
    assert s.sync.Some? && s.sync.value < |s.workers| ==> WorkerOk(s, s.sync.value);
    assert WorkerOk(s, a.w);
  }

  lemma {:induction false} DueElsewhere(s: State, a: Action, u: nat)
    requires Shape(s) && GroupsOk(s) && Enabled(s, a) && u < |s.tasks| && u != TaskOf(s, a) && !a.CheckGroup?
    ensures DueForReset(Step(s, a), u) == DueForReset(s, u)
  {
    if a.Notify? || a.Check? || a.Enter? || a.Scan? || a.Decide? {
      DueByCalls(s, a, u);
    } else {
      DueByWorkers(s, a, u);
    }
  }

  lemma {:induction false} CountsElsewhere(s: State, a: Action, u: nat)
    requires Shape(s) && GroupsOk(s) && Enabled(s, a) && u < |s.tasks| && u != TaskOf(s, a) && !a.CheckGroup?
    requires Counts(s, u)
    ensures Counts(Step(s, a), u)
  {
    StepShape(s, a);
    DueElsewhere(s, a, u);
    SameElsewhere(s, Step(s, a), CallOf(s, a), WorkerOf(s, a), TaskOf(s, a), u);
    assert Step(s, a).epochs == s.epochs;
  }

  // Other tasks have the same counts, place and scans in s and s'
  lemma {:induction false} SameElsewhere(s: State, s': State, j: nat, w: nat, t: nat, u: nat)
    requires Shape(s) && Local(s, s', j, w, t) && u < |s.tasks| && u != t
    requires DueForReset(s', u) == DueForReset(s, u)
    ensures s'.tasks[u] == s.tasks[u] && Executed(s', u) == Executed(s, u)
    ensures forall i :: Lags(s', u, i) == Lags(s, u, i)
    ensures forall i :: Armed(s', u, i) == Armed(s, u, i)
    ensures PlainOk(s, u) ==> PlainOk(s', u)
  {
    var task := s.tasks[u];
    assert TaskOk(s, u);
    assert task.place.With? ==> s'.workers[task.place.w] == s.workers[task.place.w];
    assert task.owner.ByWorker? ==> Holds(s.workers[task.owner.w], u);
  }

  // ---- the task that a step touches

  lemma {:induction false} NotifyCounts(s: State, j: nat, t: nat, i: nat)
    requires Shape(s) && CanNotify(s, j, t, i) && Counts(s, t)
    ensures Counts(DoNotify(s, j, t, i), t)
  {
    var s' := DoNotify(s, j, t, i);
    var a, b := s.tasks[t].inputs, s'.tasks[t].inputs;
    assert TaskOk(s, t);
    assert forall k :: Lags(s', t, k) == Lags(s, t, k) && Armed(s', t, k) == Armed(s, t, k);
    assert b == a[i := InputRules.Notify(a[i])];
    if AllPlain(b) {
      assert forall k :: 0 <= k < |a| ==> Plain(b[k]) ==> Plain(a[k]);
      NotifyBalances(a[i]);
    }
  }

  lemma {:induction false} CheckCounts(s: State, j: nat)
    requires Shape(s) && CanCheck(s, j) && Counts(s, s.calls[j].task)
    ensures Counts(DoCheck(s, j), s.calls[j].task)
  {
  }

  lemma {:induction false} EnterCounts(s: State, j: nat)
    requires Shape(s) && CanEnter(s, j) && Counts(s, s.calls[j].task)
    ensures Counts(DoEnter(s, j), s.calls[j].task)
  {
    var t, s' := s.calls[j].task, DoEnter(s, j);
    assert forall k :: Lags(s', t, k) == Lags(s, t, k) && Armed(s', t, k) == Armed(s, t, k);
  }

  lemma {:induction false} ScanCounts(s: State, j: nat)
    requires Shape(s) && CanScan(s, j) && Counts(s, s.calls[j].task)
    ensures Counts(DoScan(s, j), s.calls[j].task)
  {
    var t, s' := s.calls[j].task, DoScan(s, j);
    assert CallOk(s, j);
    assert forall k :: Lags(s', t, k) == Lags(s, t, k) && Armed(s', t, k) == Armed(s, t, k);
  }

  lemma {:induction false} DecideCounts(s: State, j: nat)
    requires Shape(s) && CanDecide(s, j) && Counts(s, s.calls[j].task)
    ensures Counts(DoDecide(s, j), s.calls[j].task)
  {
    var t, s' := s.calls[j].task, DoDecide(s, j);
    assert CallOk(s, j) && TaskOk(s, t);
    assert forall k :: Lags(s', t, k) == Lags(s, t, k);
  }

  lemma {:induction false} FetchCounts(s: State, w: nat, k: nat)
    requires Shape(s) && CanFetch(s, w, k) && Counts(s, s.runQueue[k])
    ensures Counts(DoFetch(s, w, k), s.runQueue[k])
  {
    assert TaskOk(s, s.runQueue[k]) && WorkerOk(s, w);
  }

  lemma {:induction false} BeginCounts(s: State, w: nat)
    requires Shape(s) && CanBegin(s, w) && Counts(s, s.workers[w].task)
    ensures Counts(DoBegin(s, w), s.workers[w].task)
  {
    assert TaskOk(s, s.workers[w].task) && WorkerOk(s, w);
  }

  lemma {:induction false} LeaveCounts(s: State, w: nat)
    requires Shape(s) && CanLeave(s, w) && s.workers[w].task < |s.tasks| && Counts(s, s.workers[w].task)
    ensures Counts(DoLeave(s, w), s.workers[w].task)
  {
    assert TaskOk(s, s.workers[w].task) && WorkerOk(s, w);
  }

  lemma {:induction false} RetireCounts(s: State, w: nat)
    requires Shape(s) && CanRetire(s, w) && Counts(s, s.workers[w].task)
    ensures Counts(DoRetire(s, w), s.workers[w].task)
  {
    assert TaskOk(s, s.workers[w].task) && WorkerOk(s, w);
  }

  lemma {:induction false} CheckGroupCounts(s: State, w: nat, u: nat)
    requires Shape(s) && GroupsOk(s) && CanCheckGroup(s, w) && u < |s.tasks| && Counts(s, u)
    ensures Counts(DoCheckGroup(s, w), u)
  {
    assert TaskOk(s, u) && WorkerOk(s, w);
  }

  lemma {:induction false} StartResetCounts(s: State, w: nat)
    requires Shape(s) && CanStartReset(s, w) && Counts(s, s.workers[w].todo[0])
    ensures Counts(DoStartReset(s, w), s.workers[w].todo[0])
  {
    var t := s.workers[w].todo[0];
    assert TaskOk(s, t) && WorkerOk(s, w);
  }

  lemma {:induction false} ResetInputCounts(s: State, w: nat)
    requires Shape(s) && CanResetInput(s, w) && Counts(s, s.workers[w].todo[0])
    ensures Counts(DoResetInput(s, w), s.workers[w].todo[0])
  {
    var t, p, s' := s.workers[w].todo[0], s.workers[w].p, DoResetInput(s, w);
    assert TaskOk(s, t) && WorkerOk(s, w);
    assert s'.tasks[t].inputs == s.tasks[t].inputs[p := InputRules.Reset(s.tasks[t].inputs[p])];
    assert forall k :: Lags(s', t, k) == (k != p && Lags(s, t, k));
    ResetInputPlain(s, w);
  }

  lemma {:induction false} ResetInputPlain(s: State, w: nat)
    requires Shape(s) && CanResetInput(s, w) && PlainOk(s, s.workers[w].todo[0])
    ensures PlainOk(DoResetInput(s, w), s.workers[w].todo[0])
  {
    var t, p, s' := s.workers[w].todo[0], s.workers[w].p, DoResetInput(s, w);
    var a, b, owner := s.tasks[t].inputs, s'.tasks[t].inputs, s.tasks[t].owner;
    assert TaskOk(s, t) && WorkerOk(s, w);
    assert owner.ByWorker? ==> WorkerOk(s, owner.w);
    assert b == a[p := InputRules.Reset(a[p])];
    if AllPlain(b) {
      assert forall k :: 0 <= k < |a| ==> Plain(b[k]) ==> Plain(a[k]);
      assert Armed(s, t, p) && forall k :: Armed(s', t, k) ==> k != p && Armed(s, t, k);
      ResetBalances(a[p]);
    }
  }

  lemma {:induction false} EndInputsCounts(s: State, w: nat)
    requires Shape(s) && CanEndInputs(s, w) && Counts(s, s.workers[w].todo[0])
    ensures Counts(DoEndInputs(s, w), s.workers[w].todo[0])
  {
    var t := s.workers[w].todo[0];
    assert TaskOk(s, t) && WorkerOk(s, w);
  }

  lemma {:induction false} CloseScanCounts(s: State, w: nat)
    requires Shape(s) && CanCloseScan(s, w) && Counts(s, s.workers[w].todo[0])
    ensures Counts(DoCloseScan(s, w), s.workers[w].todo[0])
  {
    var t := s.workers[w].todo[0];
    assert TaskOk(s, t) && WorkerOk(s, w);
  }

  lemma {:induction false} CloseCounts(s: State, w: nat)
    requires Shape(s) && CanClose(s, w) && Counts(s, s.workers[w].todo[0])
    ensures Counts(DoClose(s, w), s.workers[w].todo[0])
  {
    var t := s.workers[w].todo[0];
    assert TaskOk(s, t) && WorkerOk(s, w);
  }

  lemma {:induction false} StepCounts(s: State, a: Action, u: nat)
    requires Shape(s) && GroupsOk(s) && Enabled(s, a) && u < |s.tasks| && Counts(s, u)
    ensures Counts(Step(s, a), u)
  {
    if a.CheckGroup? {
      CheckGroupCounts(s, a.w, u);
    } else if u != TaskOf(s, a) {
      CountsElsewhere(s, a, u);
    } else {
      match a
      case Notify(j, t, i) => NotifyCounts(s, j, t, i);
      case Check(j) => CheckCounts(s, j);
      case Enter(j) => EnterCounts(s, j);
      case Scan(j) => ScanCounts(s, j);
      case Decide(j) => DecideCounts(s, j);
      case Fetch(w, k) => FetchCounts(s, w, k);
      case Begin(w) => BeginCounts(s, w);
      case Leave(w) => LeaveCounts(s, w);
      case Retire(w) => RetireCounts(s, w);
      case StartReset(w) => StartResetCounts(s, w);
      case ResetInput(w) => ResetInputCounts(s, w);
      case EndInputs(w) => EndInputsCounts(s, w);
      case CloseScan(w) => CloseScanCounts(s, w);
      case Close(w) => CloseCounts(s, w);
    }
  }
}

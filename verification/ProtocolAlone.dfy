/** Without interference the steps of a call do together what the methods of the objects do at once. */
module ProtocolAlone {
  import opened Sequences
  import opened InputRules
  import opened Protocol
  import opened ProtocolShape

  // The rest of the reads of a call that tests the inputs
  function ScanRest(s: State, j: nat): State
    decreases if CanScan(s, j) then |s.tasks[s.calls[j].task].inputs| - |s.calls[j].seen| else 0
  {
    if CanScan(s, j) then ScanRest(DoScan(s, j), j) else s
  }

  lemma {:induction false} ScansAll(s: State, j: nat)
    requires j < |s.calls| && s.calls[j].Scanning? && s.calls[j].task < |s.tasks|
    requires var inputs, seen := s.tasks[s.calls[j].task].inputs, s.calls[j].seen;
      |seen| <= |inputs| && forall k :: 0 <= k < |seen| ==> seen[k] == Activated(inputs[k])
    ensures ScanRest(s, j) == SetCall(s, j, Scanning(s.calls[j].task, Flags(s.tasks[s.calls[j].task].inputs)))
    decreases |s.tasks[s.calls[j].task].inputs| - |s.calls[j].seen|
  {
    var t, seen := s.calls[j].task, s.calls[j].seen;
    var inputs := s.tasks[t].inputs;
    if |seen| < |inputs| {
      ScansAll(DoScan(s, j), j);
      assert DoScan(s, j).calls[j := Scanning(t, Flags(inputs))] == s.calls[j := Scanning(t, Flags(inputs))];
    } else {
      assert seen == Flags(inputs);
      assert s.calls[j := s.calls[j]] == s.calls;
    }
  }

  // A whole call of activate
  ghost function ActivateAlone(s: State, j: nat): State
    requires CanEnter(s, j)
  {
    var s1 := DoEnter(s, j);
    if s1.calls[j] == Idle then s1
    else
      var s2 := ScanRest(s1, j);
      if CanDecide(s2, j) then DoDecide(s2, j) else s2
  }

  // What the call makes of the status of its task
  ghost function ActivatedStatus(task: Task): Status {
    if !Active(task.inputs) then task.status
    else match task.status
      case Wait => Run
      case Reset => Pending
      case other => other
  }

  // A call of activate makes a waiting task run, and one in its reset pending, exactly if the array is activated
  lemma {:induction false} ActivatesAlone(s: State, j: nat)
    requires CanEnter(s, j)
    ensures var t, s' := s.calls[j].task, ActivateAlone(s, j);
      && t < |s'.tasks| == |s.tasks| && s'.calls == s.calls[j := Idle] && s'.workers == s.workers
      && s'.tasks[t].status == ActivatedStatus(s.tasks[t]) && s'.tasks[t].inputs == s.tasks[t].inputs
      && s'.tasks[t].owner == Nobody
      && s'.runQueue == s.runQueue + (if s.tasks[t].status == Wait && Active(s.tasks[t].inputs) then [t] else [])
      && forall u :: 0 <= u < |s.tasks| && u != t ==> s'.tasks[u] == s.tasks[u]
  {
    var t := s.calls[j].task;
    var s1 := DoEnter(s, j);
    if s1.calls[j] != Idle {
      ScansAll(s1, j);
    }
  }

  // A whole call of notifyInput, as far as it goes
  ghost function NotifyAlone(s: State, j: nat, t: nat, i: nat): State
    requires CanNotify(s, j, t, i)
  {
    var s1 := DoNotify(s, j, t, i);
    if s1.calls[j] == Idle then s1
    else
      var s2 := DoCheck(s1, j);
      if CanEnter(s2, j) then ActivateAlone(s2, j) else s2
  }

  // Any idle notifier can notify any input. The notification counts, and activates the task exactly if it is not a
  // missed one and its input is activated then.
  lemma {:induction false} NotifiesAlone(s: State, j: nat, t: nat, i: nat)
    requires |s.workers| <= j < |s.calls| && s.calls[j] == Idle && t < |s.tasks| && i < |s.tasks[t].inputs|
    requires s.tasks[t].owner == Nobody
    ensures CanNotify(s, j, t, i)
    ensures var input, s' := s.tasks[t].inputs[i], NotifyAlone(s, j, t, i);
      var task := s.tasks[t].(inputs := s.tasks[t].inputs[i := InputRules.Notify(input)]);
      var reports := !CountsAsMissed(input) && Activated(InputRules.Notify(input));
      && t < |s'.tasks| && j < |s'.calls| && s'.calls[j] == Idle && s'.tasks[t].inputs == task.inputs
      && s'.tasks[t].status == if reports then ActivatedStatus(task) else task.status
  {
    var s1 := DoNotify(s, j, t, i);
    if s1.calls[j] != Idle {
      var s2 := DoCheck(s1, j);
      if CanEnter(s2, j) {
        ActivatesAlone(s2, j);
      }
    }
  }

  // ---- a whole reset

  // The worker has reset the first p inputs of its task, which were was before, and no call is on its way for it
  ghost predicate HasReset(s: State, w: nat, was: seq<Input>, p: nat) {
    && w < |s.workers| <= |s.calls| && s.calls[w] == Idle && p <= |was|
    && s.workers[w].ResettingInputs? && s.workers[w].p == p && HasHead(s, s.workers[w].todo)
    && var task := s.tasks[s.workers[w].todo[0]];
       && task.owner == Nobody && task.inputs == ResetUpTo(was, p)
       && task.status == if PendingAfter(was, p) then Pending else Status.Reset
  }

  // The reset of the next input, with the call of activate it may lead to
  ghost function ResetNextAlone(s: State, w: nat): State
    requires CanResetInput(s, w)
  {
    var s1 := DoResetInput(s, w);
    if s1.calls[w] != Idle && CanEnter(s1, w) then ActivateAlone(s1, w) else s1
  }

  lemma {:induction false} ResetsNext(s: State, w: nat, was: seq<Input>, p: nat)
    requires HasReset(s, w, was, p) && p < |was|
    ensures CanResetInput(s, w) && HasReset(ResetNextAlone(s, w), w, was, p + 1)
    ensures ResetNextAlone(s, w).workers[w].todo == s.workers[w].todo
  {
    var s1 := DoResetInput(s, w);
    InputRules.ResetNext(was, p);
    if s1.calls[w] != Idle {
      ActivatesAlone(s1, w);
    }
  }

  // The reset of all inputs from the p-th on
  ghost function ResetRest(s: State, w: nat, n: nat): State
    decreases n
  {
    if n == 0 then s else if CanResetInput(s, w) then ResetRest(ResetNextAlone(s, w), w, n - 1) else s
  }

  lemma {:induction false} ResetsAll(s: State, w: nat, was: seq<Input>, p: nat)
    requires HasReset(s, w, was, p)
    ensures HasReset(ResetRest(s, w, |was| - p), w, was, |was|)
    ensures ResetRest(s, w, |was| - p).workers[w].todo == s.workers[w].todo
    decreases |was| - p
  {
    if p < |was| {
      ResetsNext(s, w, was, p);
      ResetsAll(ResetNextAlone(s, w), w, was, p + 1);
    }
  }

  function CloseRest(s: State, w: nat): State
    decreases if CanCloseScan(s, w) then |s.tasks[s.workers[w].todo[0]].inputs| - |s.workers[w].seen| else 0
  {
    if CanCloseScan(s, w) then CloseRest(DoCloseScan(s, w), w) else s
  }

  lemma {:induction false} ClosesAll(s: State, w: nat)
    requires w < |s.workers| && s.workers[w].Closing? && HasHead(s, s.workers[w].todo)
    requires var inputs, seen := s.tasks[s.workers[w].todo[0]].inputs, s.workers[w].seen;
      |seen| <= |inputs| && forall k :: 0 <= k < |seen| ==> seen[k] == Activated(inputs[k])
    ensures CloseRest(s, w) ==
      SetWorker(s, w, Closing(s.workers[w].todo, Flags(s.tasks[s.workers[w].todo[0]].inputs)))
    decreases |s.tasks[s.workers[w].todo[0]].inputs| - |s.workers[w].seen|
  {
    var todo, seen := s.workers[w].todo, s.workers[w].seen;
    var inputs := s.tasks[todo[0]].inputs;
    if |seen| < |inputs| {
      ClosesAll(DoCloseScan(s, w), w);
      var end := Closing(todo, Flags(inputs));
      assert DoCloseScan(s, w).workers[w := end] == s.workers[w := end];
    } else {
      assert seen == Flags(inputs);
      assert s.workers[w := s.workers[w]] == s.workers;
    }
  }

  // The end of a reset
  ghost function CloseAlone(s: State, w: nat): State
    requires CanEndInputs(s, w)
  {
    var s1 := DoEndInputs(s, w);
    if !s1.workers[w].Closing? then s1
    else
      var s2 := CloseRest(s1, w);
      if CanClose(s2, w) then DoClose(s2, w) else s2
  }

  lemma {:induction false} ClosesAlone(s: State, w: nat, was: seq<Input>)
    requires HasReset(s, w, was, |was|)
    ensures CanEndInputs(s, w)
    ensures var t, s' := s.workers[w].todo[0], CloseAlone(s, w);
      && t < |s'.tasks| && s'.tasks[t].inputs == ResetUpTo(was, |was|)
      && w < |s'.workers| && s'.workers[w] == Resetting(s.workers[w].todo[1..])
      && s'.tasks[t].status ==
         if PendingAfter(was, |was|) && Active(ResetUpTo(was, |was|)) then Run else Wait
  {
    var s1 := DoEndInputs(s, w);
    if s1.workers[w].Closing? {
      ClosesAll(s1, w);
    }
  }

  ghost function ResetAlone(s: State, w: nat): State
    requires CanStartReset(s, w)
  {
    var s1 := DoStartReset(s, w);
    var s2 := ResetRest(s1, w, |s.tasks[s.workers[w].todo[0]].inputs|);
    if CanEndInputs(s2, w) then CloseAlone(s2, w) else s2
  }

  // A whole reset makes the task run exactly if the array is activated afterwards and some input was activated again
  lemma {:induction false} ResetsAlone(s: State, w: nat)
    requires CanStartReset(s, w) && |s.workers| <= |s.calls| && s.calls[w] == Idle
    requires var inputs := s.tasks[s.workers[w].todo[0]].inputs;
      forall k :: 0 <= k < |inputs| ==> Configured(inputs[k])
    ensures var t, s' := s.workers[w].todo[0], ResetAlone(s, w);
      var was := s.tasks[t].inputs;
      && t < |s'.tasks| && s'.tasks[t].inputs == ResetUpTo(was, |was|)
      && w < |s'.workers| && s'.workers[w] == Resetting(s.workers[w].todo[1..])
      && s'.tasks[t].status == if Active(ResetUpTo(was, |was|)) && SomeReactivates(was) then Run else Wait
  {
    var was, s1 := s.tasks[s.workers[w].todo[0]].inputs, DoStartReset(s, w);
    assert ResetUpTo(was, 0) == was;
    ResetsAll(s1, w, was, 0);
    ClosesAlone(ResetRest(s1, w, |was|), w, was);
    if Active(ResetUpTo(was, |was|)) {
      PendingIff(was);
    }
  }
}

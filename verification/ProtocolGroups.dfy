/** A group whose members have all finished is reset, so that it keeps executing as its notifications allow. */
module ProtocolGroups {
  import opened Arithmetic
  import opened Sequences
  import opened InputRules
  import opened Protocol
  import opened ProtocolShape
  import opened ProtocolCounting
  import opened ProtocolRuns

  // The worker is about to check this group, or to reset its members
  ghost predicate Attends(s: State, w: nat, g: nat)
    requires w < |s.workers| && g < |s.groups|
  {
    match s.workers[w]
    case Checking(t) => t in s.groups[g]
    case Resetting(todo) => todo != [] && todo[0] in s.groups[g]
    case _ => false
  }

  ghost predicate Attended(s: State, g: nat)
    requires g < |s.groups|
  {
    s.groups[g] != [] && AllExecuted(s, g) ==> exists w: nat :: w < |s.workers| && Attends(s, w, g)
  }

  // A step that finishes no task and leaves those who attend alone
  lemma {:induction false} StillAttended(s: State, s': State, g: nat)
    requires g < |s.groups| && Attended(s, g) && s'.groups == s.groups && |s'.workers| == |s.workers|
    requires AllExecuted(s', g) ==> AllExecuted(s, g)
    requires forall w: nat :: w < |s.workers| && Attends(s, w, g) ==> s'.workers[w] == s.workers[w]
    ensures Attended(s', g)
  {
    if s.groups[g] != [] && AllExecuted(s', g) {
      var w: nat :| w < |s.workers| && Attends(s, w, g);
      assert Attends(s', w, g);
    }
  }

  lemma {:induction false} RetireAttended(s: State, w: nat, g: nat)
    requires Shape(s) && GroupsOk(s) && CanRetire(s, w) && g < |s.groups| && Attended(s, g)
    ensures Attended(DoRetire(s, w), g)
  {
    var t, s' := s.workers[w].task, DoRetire(s, w);
    assert WorkerOk(s, w);
    if s.tasks[t].group == Some(g) {
      assert Attends(s', w, g);
    } else {
      assert AllExecuted(s', g) ==> AllExecuted(s, g) by {
        if AllExecuted(s', g) {
          forall k | 0 <= k < |s.groups[g]| ensures s.tasks[s.groups[g][k]].status == Finish {
            assert s.groups[g][k] != t;
          }
        }
      }
      StillAttended(s, s', g);
    }
  }

  lemma {:induction false} CheckGroupAttended(s: State, w: nat, g: nat)
    requires Shape(s) && GroupsOk(s) && CanCheckGroup(s, w) && g < |s.groups| && Attended(s, g)
    ensures Attended(DoCheckGroup(s, w), g)
  {
    var t, s' := s.workers[w].task, DoCheckGroup(s, w);
    assert WorkerOk(s, w);
    if t in s.groups[g] {
      assert s.tasks[t].group == Some(g);
      assert AllExecuted(s, g) ==> Attends(s', w, g);
    } else {
      StillAttended(s, s', g);
    }
  }

  lemma {:induction false} StartResetAttended(s: State, w: nat, g: nat)
    requires Shape(s) && GroupsOk(s) && CanStartReset(s, w) && g < |s.groups| && Attended(s, g)
    ensures Attended(DoStartReset(s, w), g)
  {
    var t, s' := s.workers[w].todo[0], DoStartReset(s, w);
    if t in s.groups[g] {
      var k :| 0 <= k < |s.groups[g]| && s.groups[g][k] == t;
      assert s'.tasks[t].status == Status.Reset;
    } else {
      StillAttended(s, s', g);
    }
  }

  // The other steps finish no task and start from no worker who attends
  lemma {:induction false} OtherAttended(s: State, a: Action, g: nat)
    requires Shape(s) && GroupsOk(s) && Enabled(s, a) && g < |s.groups| && Attended(s, g)
    requires !a.Retire? && !a.CheckGroup? && !a.StartReset?
    ensures Attended(Step(s, a), g)
  {
    var s' := Step(s, a);
    StepShape(s, a);
    SameGroups(s, a);
    FinishesNone(s, a);
    LeavesAttending(s, a, g);
    StillAttended(s, s', g);
  }

  lemma {:induction false} FinishesNone(s: State, a: Action)
    requires Shape(s) && GroupsOk(s) && Enabled(s, a) && !a.Retire?
    ensures |Step(s, a).tasks| == |s.tasks|
    ensures forall t :: 0 <= t < |s.tasks| && Step(s, a).tasks[t].status == Finish ==> s.tasks[t].status == Finish
  {
    StepShape(s, a);
  }

  lemma {:induction false} LeavesAttending(s: State, a: Action, g: nat)
    requires Enabled(s, a) && g < |s.groups| && !a.Retire? && !a.CheckGroup? && !a.StartReset?
    ensures |Step(s, a).workers| == |s.workers|
    ensures forall w: nat :: w < |s.workers| && Attends(s, w, g) ==> Step(s, a).workers[w] == s.workers[w]
  {
  }

  lemma {:induction false} StepAttended(s: State, a: Action, g: nat)
    requires Shape(s) && GroupsOk(s) && Enabled(s, a) && g < |s.groups| && Attended(s, g)
    ensures Step(s, a).groups == s.groups && Attended(Step(s, a), g)
  {
    SameGroups(s, a);
    match a
    case Retire(w) => RetireAttended(s, w, g);
    case CheckGroup(w) => CheckGroupAttended(s, w, g);
    case StartReset(w) => StartResetAttended(s, w, g);
    case _ => OtherAttended(s, a, g);
  }

  lemma {:induction false} RunAttended(s: State, run: seq<Action>, g: nat)
    requires Invariant(s) && RunEnabled(s, run) && g < |s.groups| && Attended(s, g)
    ensures After(s, run).groups == s.groups && Attended(After(s, run), g)
    decreases |run|
  {
    if run != [] {
      StepInvariant(s, run[0]);
      StepAttended(s, run[0], g);
      RunAttended(Step(s, run[0]), run[1..], g);
    }
  }

  lemma {:induction false} InitialAttended(s: State, g: nat)
    requires Initial(s) && g < |s.groups|
    ensures Attended(s, g)
  {
    assert s.groups[g] != [] ==> s.tasks[s.groups[g][0]].status == Wait;
  }

  lemma {:induction false} QuietUnattended(s: State, g: nat) returns (t: nat)
    requires Shape(s) && GroupsOk(s) && Quiet(s) && g < |s.groups| && s.groups[g] != [] && Attended(s, g)
    ensures t in s.groups[g] && t < |s.tasks| && s.tasks[t].status == Wait
  {
    var k :| 0 <= k < |s.groups[g]| && s.tasks[s.groups[g][k]].status != Finish;
    t := s.groups[g][k];
    assert TaskOk(s, t);
  }

  // In no quiet state all members of a group have finished
  lemma {:induction false} SomeMemberWaits(s: State, run: seq<Action>, g: nat) returns (t: nat)
    requires Initial(s) && RunEnabled(s, run) && g < |s.groups| && s.groups[g] != [] && Quiet(After(s, run))
    ensures t in s.groups[g] && t < |s.tasks| && t < |After(s, run).tasks| && After(s, run).tasks[t].status == Wait
  {
    InitialInvariant(s);
    RunInvariant(s, run);
    InitialAttended(s, g);
    RunAttended(s, run, g);
    t := QuietUnattended(After(s, run), g);
    assert t < |s.tasks|;
  }

  ghost predicate AllMembersPlain(s: State, g: nat)
    requires g < |s.groups|
  {
    forall t :: t in s.groups[g] ==> t < |s.tasks| && s.tasks[t].inputs != [] && AllPlain(s.tasks[t].inputs)
  }

  // How often the notifications of an input of a member reach its threshold
  function Quota(s: State, run: seq<Action>, t: nat, i: nat): nat
    requires t < |s.tasks| && i < |s.tasks[t].inputs|
  {
    if s.tasks[t].inputs[i].threshold == 0 then 0 else Notifications(run, t, i) / s.tasks[t].inputs[i].threshold
  }

  // In any state the resets of a group need the notifications of all its members
  lemma {:induction false} GroupBound(s: State, run: seq<Action>, g: nat, t: nat, i: nat)
    requires Initial(s) && RunEnabled(s, run) && g < |s.groups| && AllMembersPlain(s, g)
    requires t in s.groups[g] && i < |s.tasks[t].inputs|
    ensures var s' := After(s, run);
      && g < |s'.epochs| && t < |s'.tasks| && i < |s'.tasks[t].inputs|
      && s'.tasks[t].inputs[i].received == Notifications(run, t, i)
      && s'.tasks[t].inputs[i].threshold == s.tasks[t].inputs[i].threshold > 0
      && s'.epochs[g] <= Quota(s, run, t, i)
  {
    InitialInvariant(s);
    RunInvariant(s, run);
    RunReceived(s, run, t, i);
    var s' := After(s, run);
    var inputs, inputs' := s.tasks[t].inputs, s'.tasks[t].inputs;
    assert Fresh(inputs[i]) && Plain(inputs[i]);
    assert s.tasks[t].group == Some(g);
    StaysPlain(inputs, inputs');
    EnoughReceived(s', t, i);
    MemberInStep(s', t, g);
  }

  lemma {:induction false} StaysPlain(a: seq<Input>, b: seq<Input>)
    requires SameConfiguration(a, b) && AllPlain(a)
    ensures AllPlain(b)
  {
    forall i | 0 <= i < |b| ensures Plain(b[i]) {
      assert Plain(a[i]);
    }
  }

  ghost predicate AtMostEach(s: State, run: seq<Action>, t: nat, n: nat)
    requires t < |s.tasks|
  {
    forall i: nat :: i < |s.tasks[t].inputs| ==> n <= Quota(s, run, t, i)
  }

  ghost predicate ReachesOne(s: State, run: seq<Action>, t: nat, n: nat)
    requires t < |s.tasks|
  {
    exists i: nat :: i < |s.tasks[t].inputs| && n == Quota(s, run, t, i)
  }

  lemma {:induction false} MemberBound(s: State, run: seq<Action>, g: nat, t: nat)
    requires Initial(s) && RunEnabled(s, run) && g < |s.groups| && AllMembersPlain(s, g) && t in s.groups[g]
    ensures g < |After(s, run).epochs| && AtMostEach(s, run, t, After(s, run).epochs[g])
  {
    assert 0 < |s.tasks[t].inputs|;
    GroupBound(s, run, g, t, 0);
    forall i: nat | i < |s.tasks[t].inputs| ensures After(s, run).epochs[g] <= Quota(s, run, t, i) {
      GroupBound(s, run, g, t, i);
    }
  }

  // The scarcest input of all members decides how often a group is reset: never more often, and just as often whenever
  // everything is idle
  lemma {:induction false} GroupThroughput(s: State, run: seq<Action>, g: nat)
    requires Initial(s) && RunEnabled(s, run) && g < |s.groups| && s.groups[g] != [] && AllMembersPlain(s, g)
    ensures g < |After(s, run).epochs|
    ensures forall t :: t in s.groups[g] ==> AtMostEach(s, run, t, After(s, run).epochs[g])
    ensures Quiet(After(s, run)) ==> exists t :: t in s.groups[g] && ReachesOne(s, run, t, After(s, run).epochs[g])
  {
    MemberBound(s, run, g, s.groups[g][0]);
    forall t | t in s.groups[g] ensures AtMostEach(s, run, t, After(s, run).epochs[g]) {
      MemberBound(s, run, g, t);
    }
    if Quiet(After(s, run)) {
      var t := SomeMemberWaits(s, run, g);
      var i := StarvedMember(s, run, g, t);
      assert ReachesOne(s, run, t, After(s, run).epochs[g]);
    }
  }

  // An idle member lacks the notifications for another execution
  lemma {:induction false} StarvedMember(s: State, run: seq<Action>, g: nat, t: nat) returns (i: nat)
    requires Initial(s) && RunEnabled(s, run) && g < |s.groups| && t in s.groups[g] && AllMembersPlain(s, g)
    requires Quiet(After(s, run)) && t < |After(s, run).tasks| && After(s, run).tasks[t].status == Wait
    ensures g < |After(s, run).epochs| && i < |s.tasks[t].inputs| && After(s, run).epochs[g] == Quota(s, run, t, i)
  {
    InitialInvariant(s);
    RunInvariant(s, run);
    RunKeeps(s, run, t);
    var s' := After(s, run);
    StaysPlain(s.tasks[t].inputs, s'.tasks[t].inputs);
    i := StarvedWaiting(s', t);
    GroupBound(s, run, g, t, i);
    MemberInStep(s', t, g);
  }
}

/** The rules of a task input and of an array of inputs. */
module InputRules {
  import opened Arithmetic

  // received counts all notifications and rounds all resets since the start
  datatype Input = Input(threshold: nat, final: bool, synchron: bool, notifications: nat, missed: nat,
                         received: nat, rounds: nat)

  predicate Activated(i: Input) {
    if i.final && i.threshold == 0 then i.notifications > 0 else i.notifications >= i.threshold
  }

  predicate Optional(i: Input) {
    i.threshold == 0
  }

  // An input that has to be activated unless a final one is
  predicate Ordinary(i: Input) {
    !i.final && !Optional(i)
  }

  // Synchronisation is switched off for optional inputs
  predicate Configured(i: Input) {
    i.synchron ==> 0 < i.threshold
  }

  predicate CountsAsMissed(i: Input) {
    i.synchron && Activated(i)
  }

  function Notify(i: Input): Input {
    if CountsAsMissed(i) then i.(missed := i.missed + 1, received := i.received + 1)
    else i.(notifications := i.notifications + 1, received := i.received + 1)
  }

  // In synchronous mode notifications beyond the threshold count as missed
  function SwitchSynchron(i: Input, syncState: bool): Input {
    if !syncState || Optional(i) then i.(synchron := false, notifications := i.notifications + i.missed, missed := 0)
    else if i.notifications > i.threshold
    then i.(synchron := true, missed := i.notifications - i.threshold, notifications := i.threshold)
    else i.(synchron := true)
  }

  // A new configuration keeps what has been counted
  function Reconfigured(i: Input, activations: nat, isFinal: bool): Input {
    i.(threshold := activations, final := isFinal, synchron := 0 < activations)
  }

  // The reset finds enough missed notifications for another activation
  predicate Reactivates(i: Input) {
    i.synchron && i.missed >= i.threshold
  }

  function Reset(i: Input): Input {
    if Reactivates(i) then i.(missed := i.missed - i.threshold, notifications := i.threshold, rounds := i.rounds + 1)
    else if i.synchron then i.(notifications := i.missed, missed := 0, rounds := i.rounds + 1)
    else i.(notifications := 0, rounds := i.rounds + 1)
  }

  function Flags(inputs: seq<Input>): seq<bool> {
    seq(|inputs|, k requires 0 <= k < |inputs| => Activated(inputs[k]))
  }

  // seen[k] tells whether input k was found activated
  ghost predicate Rule(inputs: seq<Input>, seen: seq<bool>)
    requires |seen| == |inputs|
  {
    || (exists k :: 0 <= k < |inputs| && seen[k] && inputs[k].final)
    || (forall k :: 0 <= k < |inputs| ==> seen[k] || inputs[k].final || Optional(inputs[k]))
  }

  ghost predicate Active(inputs: seq<Input>) {
    Rule(inputs, Flags(inputs))
  }

  ghost predicate HasOrdinary(inputs: seq<Input>) {
    exists k :: 0 <= k < |inputs| && Ordinary(inputs[k])
  }

  // An array without an ordinary input is activated before any notification arrives
  lemma {:induction false} AlwaysActive(inputs: seq<Input>)
    requires !HasOrdinary(inputs)
    ensures Active(inputs)
  {
    forall k | 0 <= k < |inputs| ensures inputs[k].final || Optional(inputs[k]) {
      assert !Ordinary(inputs[k]);
    }
  }

  // The rule in terms of the ordinary inputs
  lemma {:induction false} ActiveExactly(inputs: seq<Input>)
    ensures Active(inputs) <==>
      || (exists k :: 0 <= k < |inputs| && Activated(inputs[k]) && inputs[k].final)
      || (forall k :: 0 <= k < |inputs| && Ordinary(inputs[k]) ==> Activated(inputs[k]))
  {
    var flags := Flags(inputs);
    assert forall k :: 0 <= k < |inputs| ==> flags[k] == Activated(inputs[k]);
    assert forall k :: 0 <= k < |inputs| && !inputs[k].final && !Optional(inputs[k]) ==> Ordinary(inputs[k]);
  }

  // The array when the first p inputs have been reset
  function ResetUpTo(inputs: seq<Input>, p: nat): seq<Input> {
    seq(|inputs|, k requires 0 <= k < |inputs| => if k < p then Reset(inputs[k]) else inputs[k])
  }

  // Some input among the first p finds the array activated by its own reset
  ghost predicate PendingAfter(inputs: seq<Input>, p: nat) {
    exists k :: 0 <= k < |inputs| && k < p && Reactivates(inputs[k]) && Active(ResetUpTo(inputs, k + 1))
  }

  ghost predicate SomeReactivates(inputs: seq<Input>) {
    exists k :: 0 <= k < |inputs| && Reactivates(inputs[k])
  }

  lemma {:induction false} ResetNext(inputs: seq<Input>, p: nat)
    requires p < |inputs|
    ensures ResetUpTo(inputs, p + 1) == ResetUpTo(inputs, p)[p := Reset(inputs[p])]
    ensures PendingAfter(inputs, p + 1) <==>
      PendingAfter(inputs, p) || (Reactivates(inputs[p]) && Active(ResetUpTo(inputs, p + 1)))
  {
  }

  lemma {:induction false} LastOrdinary(inputs: seq<Input>) returns (i: nat)
    requires HasOrdinary(inputs)
    ensures i < |inputs| && Ordinary(inputs[i]) && forall k :: i < k < |inputs| ==> !Ordinary(inputs[k])
  {
    i :| i < |inputs| && Ordinary(inputs[i]);
    for n := i + 1 to |inputs|
      invariant i < n && Ordinary(inputs[i]) && forall k :: i < k < n ==> !Ordinary(inputs[k])
    {
      if Ordinary(inputs[n]) {
        i := n;
      }
    }
  }

  // An array that is activated after its reset has been so at one of the activations during the reset,
  // if there were any
  lemma {:induction false} PendingIff(inputs: seq<Input>)
    requires forall k :: 0 <= k < |inputs| ==> Configured(inputs[k])
    requires Active(ResetUpTo(inputs, |inputs|))
    ensures PendingAfter(inputs, |inputs|) <==> SomeReactivates(inputs)
    ensures HasOrdinary(inputs) ==> PendingAfter(inputs, |inputs|)
  {
    var reset := ResetUpTo(inputs, |inputs|);
    if !HasOrdinary(inputs) {
      if k :| 0 <= k < |inputs| && Reactivates(inputs[k]) {
        assert forall j :: 0 <= j < |inputs| ==> !Ordinary(inputs[j]);
        AlwaysActive(ResetUpTo(inputs, k + 1));
      }
    } else if k :| 0 <= k < |reset| && Flags(reset)[k] && reset[k].final {
      var sofar := ResetUpTo(inputs, k + 1);
      assert Reactivates(inputs[k]) && Flags(sofar)[k] && sofar[k].final;
    } else {
      var k := LastOrdinary(inputs);
      var sofar := ResetUpTo(inputs, k + 1);
      assert Ordinary(reset[k]) && Flags(reset)[k];
      forall j | 0 <= j < |sofar| ensures Flags(sofar)[j] || sofar[j].final || Optional(sofar[j]) {
        assert Flags(reset)[j] || reset[j].final || Optional(reset[j]);
      }
      assert Reactivates(inputs[k]) && Active(sofar);
    }
  }

  // A start with reset on inputs without notifications activates nothing, and leaves no notifications
  lemma {:induction false} EmptyStart(inputs: seq<Input>)
    requires forall k :: 0 <= k < |inputs| ==>
      Configured(inputs[k]) && inputs[k].notifications == 0 && inputs[k].missed == 0
    ensures !SomeReactivates(inputs)
    ensures var reset := ResetUpTo(inputs, |inputs|);
      forall k :: 0 <= k < |reset| ==> Configured(reset[k]) && reset[k].notifications == 0 && reset[k].missed == 0
    ensures Active(ResetUpTo(inputs, |inputs|)) <==> !HasOrdinary(inputs)
  {
    var reset := ResetUpTo(inputs, |inputs|);
    assert forall k :: 0 <= k < |inputs| ==> (Ordinary(reset[k]) <==> Ordinary(inputs[k]));
    if !HasOrdinary(inputs) {
      AlwaysActive(reset);
    } else {
      var k :| 0 <= k < |inputs| && Ordinary(inputs[k]);
      assert !(Flags(reset)[k] || reset[k].final || Optional(reset[k]));
      assert forall k :: 0 <= k < |reset| ==> !(Flags(reset)[k] && reset[k].final);
    }
  }

  // A synchronous input without special roles
  predicate Plain(i: Input) {
    i.synchron && !i.final && 0 < i.threshold
  }

  // Every notification has been consumed by a reset, counts for the next execution or is missed
  predicate Balanced(i: Input) {
    && i.received == i.threshold * i.rounds + i.notifications + i.missed
    && i.notifications <= i.threshold && (0 < i.missed ==> i.notifications == i.threshold)
  }

  lemma {:induction false} NotifyBalances(i: Input)
    requires Plain(i) && Balanced(i)
    ensures Balanced(Notify(i))
  {
  }

  lemma {:induction false} ResetBalances(i: Input)
    requires Plain(i) && Balanced(i) && Activated(i)
    ensures Balanced(Reset(i))
  {
    assert i.threshold * (i.rounds + 1) == i.threshold * i.rounds + i.threshold;
  }

  ghost predicate AllPlain(inputs: seq<Input>) {
    forall i :: 0 <= i < |inputs| ==> Plain(inputs[i])
  }

  // ---- executions without further notifications

  // Notifications that no reset has consumed yet
  function Outstanding(i: Input): nat {
    i.notifications + i.missed
  }

  // How often a task runs until its inputs are no longer activated
  ghost function Executions(inputs: seq<Input>): nat
    requires AllPlain(inputs) && inputs != []
    decreases Outstanding(inputs[0])
  {
    if Active(inputs) then
      ActiveIsAll(inputs);
      1 + Executions(ResetUpTo(inputs, |inputs|))
    else 0
  }

  lemma {:induction false} ActiveIsAll(inputs: seq<Input>)
    requires AllPlain(inputs)
    ensures Active(inputs) <==> forall i :: 0 <= i < |inputs| ==> Activated(inputs[i])
  {
    if Active(inputs) {
      forall i | 0 <= i < |inputs| ensures Activated(inputs[i]) {
        assert Flags(inputs)[i] || inputs[i].final || Optional(inputs[i]);
      }
    }
  }

  // A synchronous reset consumes exactly the threshold
  lemma {:induction false} ResetConsumes(i: Input)
    requires Plain(i) && Balanced(i) && Activated(i)
    ensures Plain(Reset(i)) && Balanced(Reset(i))
    ensures Outstanding(Reset(i)) + i.threshold == Outstanding(i)
    ensures Outstanding(i) / i.threshold == Outstanding(Reset(i)) / i.threshold + 1
  {
    var n, q := i.threshold, Outstanding(Reset(i)) / i.threshold;
    ResetBalances(i);
    assert n * (q + 1) == n * q + n;
    Quotient(Outstanding(i), n, q + 1);
  }

  // The quotient of the outstanding notifications and the threshold
  function Shares(i: Input): nat
    requires 0 < i.threshold
  {
    Outstanding(i) / i.threshold
  }

  ghost predicate AllBalanced(inputs: seq<Input>) {
    AllPlain(inputs) && forall k :: 0 <= k < |inputs| ==> Balanced(inputs[k])
  }

  lemma {:induction false} AllConsume(inputs: seq<Input>)
    requires AllBalanced(inputs) && forall k :: 0 <= k < |inputs| ==> Activated(inputs[k])
    ensures var reset := ResetUpTo(inputs, |inputs|);
      AllBalanced(reset) && forall k :: 0 <= k < |inputs| ==> Shares(inputs[k]) == Shares(reset[k]) + 1
  {
    var reset := ResetUpTo(inputs, |inputs|);
    forall k | 0 <= k < |inputs|
      ensures Plain(reset[k]) && Balanced(reset[k]) && Shares(inputs[k]) == Shares(reset[k]) + 1
    {
      ResetConsumes(inputs[k]);
    }
  }

  // The scarcest input decides how often the task runs
  lemma {:induction false} ExecutionsAreLeast(inputs: seq<Input>) returns (i: nat)
    requires AllBalanced(inputs) && inputs != []
    ensures forall k :: 0 <= k < |inputs| ==> Executions(inputs) <= Shares(inputs[k])
    ensures i < |inputs| && Executions(inputs) == Shares(inputs[i])
    decreases Outstanding(inputs[0])
  {
    ActiveIsAll(inputs);
    if Active(inputs) {
      AllConsume(inputs);
      ResetConsumes(inputs[0]);
      i := ExecutionsAreLeast(ResetUpTo(inputs, |inputs|));
    } else {
      i :| i < |inputs| && !Activated(inputs[i]);
      assert Plain(inputs[i]) && Balanced(inputs[i]);
      Quotient(Outstanding(inputs[i]), inputs[i].threshold, 0);
    }
  }

  // ---- accounting over any use of one input

  datatype Use = Notified | Switched(syncState: bool) | Taken | Configure(activations: nat, isFinal: bool)

  // The reset is meant for an activated input in synchronous mode
  predicate CanUse(i: Input, use: Use) {
    use.Taken? ==> i.synchron && Activated(i)
  }

  function Used(i: Input, use: Use): Input {
    match use
    case Notified => Notify(i)
    case Switched(syncState) => SwitchSynchron(i, syncState)
    case Taken => Reset(i)
    case Configure(activations, isFinal) => Reconfigured(i, activations, isFinal)
  }

  predicate AllUsable(i: Input, uses: seq<Use>)
    decreases |uses|
  {
    uses == [] || (CanUse(i, uses[0]) && AllUsable(Used(i, uses[0]), uses[1..]))
  }

  function UsedAll(i: Input, uses: seq<Use>): Input
    decreases |uses|
  {
    if uses == [] then i else UsedAll(Used(i, uses[0]), uses[1..])
  }

  function Occurrences(uses: seq<Use>, use: Use): nat {
    if uses == [] then 0 else (if uses[0] == use then 1 else 0) + Occurrences(uses[1..], use)
  }

  // Missed notifications exist in synchronous mode only, behind a full count
  predicate Accounted(i: Input) {
    && i.received == i.threshold * i.rounds + i.notifications + i.missed
    && (if i.synchron then i.notifications <= i.threshold && (0 < i.missed ==> i.notifications == i.threshold)
      else i.missed == 0)
  }

  // The switch finds missed notifications and has to make room for others
  predicate Overwrites(i: Input, syncState: bool) {
    syncState && !Optional(i) && i.notifications > i.threshold && 0 < i.missed
  }

  // A switch of the mode loses notifications exactly when it overwrites missed ones
  lemma {:induction false} SwitchConserves(i: Input, syncState: bool)
    ensures Outstanding(SwitchSynchron(i, syncState)) == Outstanding(i) <==> !Overwrites(i, syncState)
  {
  }

  // A switch to synchronous mode and back keeps what has been counted
  lemma {:induction false} SwitchBack(i: Input)
    requires i.missed == 0
    ensures SwitchSynchron(SwitchSynchron(i, true), false) == i.(synchron := false)
    ensures SwitchSynchron(i, true).synchron <==> !Optional(i)
    ensures !Optional(i) ==> (Activated(SwitchSynchron(i, true)) <==> Activated(i))
  {
  }

  // A reset in asynchronous mode forgets all that has been counted
  lemma {:induction false} ResetForgets(i: Input)
    requires !i.synchron
    ensures Outstanding(Reset(i)) == i.missed
    ensures Activated(Reset(i)) <==> Optional(i) && !i.final
  {
  }

  lemma {:induction false} UseAccounts(i: Input, use: Use)
    requires 0 < i.threshold && Accounted(i) && CanUse(i, use) && !use.Configure?
    ensures Accounted(Used(i, use)) && Used(i, use).threshold == i.threshold
  {
    OneRoundMore(i.threshold, i.rounds);
  }

  lemma {:induction false} OneRoundMore(n: nat, k: nat)
    ensures n * (k + 1) == n * k + n
  {
  }

  predicate Unconfigured(uses: seq<Use>) {
    forall u :: u in uses ==> !u.Configure?
  }

  // After m notifications and k resets an input with threshold n is activated exactly when n * k + n <= m
  lemma {:induction false} Accounting(i: Input, uses: seq<Use>)
    requires 0 < i.threshold && Accounted(i) && AllUsable(i, uses) && Unconfigured(uses)
    ensures var j := UsedAll(i, uses);
      && Accounted(j) && j.threshold == i.threshold
      && j.received == i.received + Occurrences(uses, Notified) && j.rounds == i.rounds + Occurrences(uses, Taken)
      && (Activated(j) <==> j.threshold * j.rounds + j.threshold <= j.received)
    decreases |uses|
  {
    if uses != [] {
      UseAccounts(i, uses[0]);
      Accounting(Used(i, uses[0]), uses[1..]);
    }
  }

  // ---- what gets lost when the threshold changes

  // Notifications that are neither outstanding afterwards nor taken for an execution
  function Loss(i: Input, use: Use): nat
    requires CanUse(i, use)
  {
    match use
    case Notified => 0
    case Switched(syncState) => if Overwrites(i, syncState) then i.missed else 0
    case Taken => i.notifications - i.threshold
    case Configure(_, _) => 0
  }

  function Losses(i: Input, uses: seq<Use>): nat
    requires AllUsable(i, uses)
    decreases |uses|
  {
    if uses == [] then 0 else Loss(i, uses[0]) + Losses(Used(i, uses[0]), uses[1..])
  }

  // What the executions have taken: the threshold at the time of each reset
  function Consumed(i: Input, uses: seq<Use>): nat
    decreases |uses|
  {
    if uses == [] then 0 else (if uses[0].Taken? then i.threshold else 0) + Consumed(Used(i, uses[0]), uses[1..])
  }

  // Every notification of any use is outstanding, has been consumed or is lost
  lemma {:induction false} Conservation(i: Input, uses: seq<Use>)
    requires AllUsable(i, uses)
    ensures Outstanding(UsedAll(i, uses)) + Consumed(i, uses) + Losses(i, uses) ==
            Outstanding(i) + Occurrences(uses, Notified)
    decreases |uses|
  {
    if uses != [] {
      Conservation(Used(i, uses[0]), uses[1..]);
    }
  }

  // Nothing is lost as long as the configuration stays the same
  lemma {:induction false} LosesNothing(i: Input, uses: seq<Use>)
    requires 0 < i.threshold && Accounted(i) && AllUsable(i, uses) && Unconfigured(uses)
    ensures Losses(i, uses) == 0
    decreases |uses|
  {
    if uses != [] {
      UseAccounts(i, uses[0]);
      LosesNothing(Used(i, uses[0]), uses[1..]);
    }
  }

  // After a new configuration the next switch or reset loses something exactly if the threshold has become too small
  lemma {:induction false} ConfigurationLoses(i: Input, activations: nat, isFinal: bool)
    requires 0 < i.threshold && Accounted(i)
    ensures var j := Reconfigured(i, activations, isFinal);
      && (0 < Loss(j, Switched(true)) <==> 0 < activations < i.threshold && 0 < i.missed)
      && (CanUse(j, Taken) ==> (0 < Loss(j, Taken) <==> activations < i.notifications))
  {
  }

  function Repeated(k: nat): seq<Use> {
    if k == 0 then [] else [Notified] + Repeated(k - 1)
  }

  // From the first notification on, with counted ones up to the threshold and missed ones beyond it
  lemma {:induction false} CountsUp(i: Input, k: nat, uses: seq<Use>)
    requires Plain(i) && Balanced(i)
    ensures var n := i.notifications + k;
      var j := i.(notifications := if n <= i.threshold then n else i.threshold, received := i.received + k,
                  missed := i.missed + if n <= i.threshold then 0 else n - i.threshold);
      && UsedAll(i, Repeated(k) + uses) == UsedAll(j, uses)
      && (AllUsable(j, uses) ==> AllUsable(i, Repeated(k) + uses) && Losses(i, Repeated(k) + uses) == Losses(j, uses))
    decreases k
  {
    if k == 0 {
      assert Repeated(k) + uses == uses;
    } else {
      var all := Repeated(k) + uses;
      assert all[0] == Notified && all[1..] == Repeated(k - 1) + uses;
      CountsUp(Notify(i), k - 1, uses);
    }
  }

  // Eight notifications for a threshold of five, then a threshold of two and a switch: the three missed ones are lost
  lemma {:induction false} LoweredThreshold()
    ensures var i := Input(5, false, true, 0, 0, 0, 0);
      var uses := Repeated(8) + [Configure(2, false), Switched(true)];
      AllUsable(i, uses) && Losses(i, uses) == 3 && Outstanding(UsedAll(i, uses)) == 5
  {
    var i, j := Input(5, false, true, 0, 0, 0, 0), Input(5, false, true, 5, 3, 8, 0);
    var last := [Configure(2, false), Switched(true)];
    CountsUp(i, 8, last);
    assert last[1..] == [Switched(true)] && last[1..][1..] == [];
    var k := Used(j, last[0]);
    assert AllUsable(k, last[1..]) && Losses(k, last[1..]) == 3 && Outstanding(UsedAll(k, last[1..])) == 5;
  }
}

/** Where calm runs lead: to the fixpoint, and it is for good. */
module SettledRuns {
  import opened Options
  import opened Outcomes
  import opened Machine
  import opened MachineInvariants
  import opened Safety
  import opened Mirroring
  import opened Calm
  import CalmWrites
  import opened Quiescence
  import opened Fixpoint
  import Notifications

  lemma StatusWriteKeepsSpec(s: Sys, status: Status, o: Outcome)
    requires CalmInv(s) && s.phase != Idle
    ensures var t := AfterWriteStatus(s, status, o); t.live.Some? ==> t.live.value.spec == s.live.value.spec
  {
  }

  lemma CallKeepsSpec(s: Sys, l: Label)
    requires CalmInv(s) && CalmStep(l) && ObjectCall(l) && AtObjectCall(s, l)
    ensures ObjectStep(s, l).live.Some? ==> ObjectStep(s, l).live.value.spec == s.live.value.spec
  {
    if l.WriteStatus? { StatusWriteKeepsSpec(s, l.written, l.o); }
  }

  lemma MoveKeepsObject(s: Sys, l: Label)
    requires ServerMove(l)
    ensures Step(s, l).live == s.live
  {
  }

  lemma OtherCallKeepsObject(s: Sys, l: Label)
    requires OperatorCall(l) && !ObjectCall(l)
    ensures Step(s, l).live == s.live
  {
    CallLeavesObject(s, l);
  }

  lemma CalmStepIsCallOrMove(s: Sys, l: Label)
    requires CalmStep(l) && At(s, l)
    ensures ServerMove(l) || OperatorCall(l)
    ensures ObjectCall(l) ==> AtObjectCall(s, l) && Step(s, l) == ObjectStep(s, l)
  {
  }

  lemma StepKeepsSpec(s: Sys, l: Label)
    requires CalmInv(s) && At(s, l) && CalmStep(l)
    ensures Step(s, l).live.Some? ==> Step(s, l).live.value.spec == s.live.value.spec
  {
    CalmStepIsCallOrMove(s, l);
    if ServerMove(l) { MoveKeepsObject(s, l); }
    else if ObjectCall(l) { CallKeepsSpec(s, l); }
    else { OtherCallKeepsObject(s, l); }
  }

  /** One step of a call that has nothing to run for. */
  lemma NearlyNext(states: seq<Sys>, labels: seq<Label>, n: nat, k: nat)
    requires IsUndisturbed(states, labels, n) && n <= k < |labels| && Nearly(states[k])
    ensures states[k].phase == Idle || states[k + 1].phase != Idle ==> Nearly(states[k + 1])
    ensures states[k].phase != Idle && states[k + 1].phase == Idle ==>
              states[k + 1].returned == Settled && states[k + 1].live.Some? && Fixed(states[k + 1])
  {
    ReachableIsSound(states, labels, k);
    WithinNext(states, labels, n, k, 0);
    assert StepAt(states, labels, k);
    StepSettles(states[k], labels[k]);
    StepKeepsSpec(states[k], labels[k]);
  }

  predicate SettlingAt(states: seq<Sys>, k: nat) {
    && k < |states| && states[k].live.Some? && Settling(states[k])
    && Notifications.DistinctNames(states[k].live.value.spec.notifications)
  }

  lemma SettlingOn(states: seq<Sys>, labels: seq<Label>, n: nat, i: nat, k: nat)
    requires IsUndisturbed(states, labels, n) && n <= i <= k < |labels| && Within(states[i], 0)
    requires SettlingAt(states, k) && BusyAt(states, k + 1)
    ensures SettlingAt(states, k + 1)
  {
    WithinFrom(states, labels, n, i, k, 0);
    NearlyNext(states, labels, n, k);
  }

  predicate SettlesOn(states: seq<Sys>, k: nat) { SettlingAt(states, k) ==> SettlingAt(states, k + 1) }

  lemma SettlesOnAlways(states: seq<Sys>, labels: seq<Label>, n: nat, i: nat, j: nat)
    requires IsUndisturbed(states, labels, n) && n <= i <= j < |states| && Within(states[i], 0)
    requires forall k :: i < k <= j ==> BusyAt(states, k)
    ensures forall k: nat :: i <= k < j ==> SettlesOn(states, k)
  {
    forall k: nat | i <= k < j && SettlingAt(states, k) ensures SettlingAt(states, k + 1) {
      assert BusyAt(states, k + 1);
      SettlingOn(states, labels, n, i, k);
    }
  }

  lemma {:induction false} SettlingFrom(states: seq<Sys>, i: nat, k: nat)
    requires i <= k && SettlingAt(states, i) && forall j: nat :: i <= j < k ==> SettlesOn(states, j)
    ensures SettlingAt(states, k)
    decreases k
  {
    if i < k {
      SettlingFrom(states, i, k - 1);
      assert SettlesOn(states, k - 1);
    }
  }

  lemma SettlingCallEnds(states: seq<Sys>, labels: seq<Label>, n: nat, i: nat, j: nat)
    requires IsUndisturbed(states, labels, n) && n <= i < j < |states| && Within(states[i], 0) && SettlingAt(states, i)
    requires (forall k :: i < k < j ==> BusyAt(states, k)) && BusyAt(states, i) && states[j].phase == Idle
    ensures states[j].returned == Settled && states[j].live.Some? && Fixed(states[j])
  {
    SettlesOnAlways(states, labels, n, i, j - 1);
    SettlingFrom(states, i, j - 1);
    assert BusyAt(states, j - 1);
    SettlingEnds(states, labels, n, i, j - 1);
  }

  /** When nothing is owed and every run has ended, the next call settles at the fixpoint. */
  lemma NextCallReachesFixpoint(states: seq<Sys>, labels: seq<Label>, n: nat, i: nat, j: nat)
    requires IsUndisturbed(states, labels, n) && n <= i && IsCall(states, labels, i, j)
    requires CalmInv(states[i]) && Rank(states[i]) == 0 && Ended(states[i].cloud.runs) &&
             states[i].cloud.workspace.Some?
    requires Notifications.DistinctNames(states[i].live.value.spec.notifications)
    ensures states[j].returned == Settled && states[j].live.Some? && Fixed(states[j])
  {
    CallStarts(states, labels, n, i, j);
    SettlingCallEnds(states, labels, n, i + 1, j);
  }

  lemma SettlingEnds(states: seq<Sys>, labels: seq<Label>, n: nat, i: nat, k: nat)
    requires IsUndisturbed(states, labels, n) && n <= i <= k < |labels| && Within(states[i], 0)
    requires SettlingAt(states, k) && BusyAt(states, k) && states[k + 1].phase == Idle
    ensures states[k + 1].returned == Settled && states[k + 1].live.Some? && Fixed(states[k + 1])
  {
    WithinFrom(states, labels, n, i, k, 0);
    NearlyNext(states, labels, n, k);
  }

  lemma CallStarts(states: seq<Sys>, labels: seq<Label>, n: nat, i: nat, j: nat)
    requires IsUndisturbed(states, labels, n) && n <= i && IsCall(states, labels, i, j)
    requires CalmInv(states[i]) && Rank(states[i]) == 0 && Ended(states[i].cloud.runs) &&
             states[i].cloud.workspace.Some?
    requires Notifications.DistinctNames(states[i].live.value.spec.notifications)
    ensures i + 1 < j && BusyAt(states, i + 1) && SettlingAt(states, i + 1) && Within(states[i + 1], 0)
  {
    NearlyNext(states, labels, n, i);
    FetchGoesOn(states, labels, n, i);
  }

  lemma FetchGoesOn(states: seq<Sys>, labels: seq<Label>, n: nat, i: nat)
    requires IsUndisturbed(states, labels, n) && n <= i < |labels| && !ServerMove(labels[i]) &&
             states[i].phase == Idle && CalmInv(states[i])
    ensures states[i + 1].phase != Idle
  {
    assert StepAt(states, labels, i);
    CalmWrites.OnlyFetchAtIdle(states[i], labels[i]);
  }

  /** One step at the fixpoint. */
  lemma StillNext(states: seq<Sys>, labels: seq<Label>, n: nat, k: nat)
    requires IsUndisturbed(states, labels, n) && n <= k < |labels| && Still(states[k]) && Within(states[k], 0)
    ensures StillStep(states[k], states[k + 1])
  {
    ReachableIsSound(states, labels, k);
    assert StepAt(states, labels, k);
    if SetupCall(labels[k]) || SyncCall(labels[k]) { CallIsStill(states[k], labels[k]); }
    else { OtherStepIsStill(states[k], labels[k]); }
  }

  /** From the state at `i` to that at `k` nothing was written. */
  predicate LookingAt(states: seq<Sys>, i: nat, k: nat) {
    i < |states| && k < |states| && Looking(states[k]) && Ended(states[k].cloud.runs) && Untouched(states[i], states[k])
  }

  predicate FixedAt(states: seq<Sys>, i: nat) {
    i < |states| && states[i].phase == Idle && CalmInv(states[i]) && Fixed(states[i])
  }

  lemma LookingIsStill(states: seq<Sys>, i: nat, k: nat)
    requires FixedAt(states, i) && LookingAt(states, i, k)
    ensures Still(states[k])
  {
    FixedStays(states[i], states[k]);
  }

  lemma LookingNext(states: seq<Sys>, labels: seq<Label>, n: nat, i: nat, k: nat)
    requires IsUndisturbed(states, labels, n) && n <= i <= k < |labels| && FixedAt(states, i) && LookingAt(states, i, k)
    ensures LookingAt(states, i, k + 1)
    ensures BusyAt(states, k) && states[k + 1].phase == Idle ==> states[k + 1].returned == Settled
  {
    LookingIsStill(states, i, k);
    WithinFrom(states, labels, n, i, k, 0);
    StillNext(states, labels, n, k);
  }

  predicate LooksOn(states: seq<Sys>, i: nat, k: nat) { LookingAt(states, i, k) ==> LookingAt(states, i, k + 1) }

  lemma LooksOnAlways(states: seq<Sys>, labels: seq<Label>, n: nat, i: nat)
    requires IsUndisturbed(states, labels, n) && n <= i && FixedAt(states, i)
    ensures forall k: nat :: i <= k < |labels| ==> LooksOn(states, i, k)
  {
    forall k: nat | i <= k < |labels| && LookingAt(states, i, k) ensures LookingAt(states, i, k + 1) {
      LookingNext(states, labels, n, i, k);
    }
  }

  lemma FixedIsLooking(states: seq<Sys>, i: nat)
    requires FixedAt(states, i)
    ensures LookingAt(states, i, i)
  {
  }

  lemma {:induction false} LookingFrom(states: seq<Sys>, i: nat, k: nat)
    requires i <= k && LookingAt(states, i, i) && forall j: nat :: i <= j < k ==> LooksOn(states, i, j)
    ensures LookingAt(states, i, k)
    decreases k
  {
    if i < k {
      LookingFrom(states, i, k - 1);
      assert LooksOn(states, i, k - 1);
    }
  }

  /** From the fixpoint on nothing is ever written ... */
  lemma FixpointIsForGood(states: seq<Sys>, labels: seq<Label>, n: nat, i: nat, k: nat)
    requires IsUndisturbed(states, labels, n) && n <= i <= k < |states| && FixedAt(states, i)
    ensures LookingAt(states, i, k)
  {
    LooksOnAlways(states, labels, n, i);
    FixedIsLooking(states, i);
    LookingFrom(states, i, k);
  }

  /** ... and every call settles. */
  lemma CallsSettleForGood(states: seq<Sys>, labels: seq<Label>, n: nat, i: nat, k: nat)
    requires IsUndisturbed(states, labels, n) && n <= i <= k < |labels| && FixedAt(states, i)
    requires BusyAt(states, k) && states[k + 1].phase == Idle
    ensures states[k + 1].returned == Settled
  {
    FixpointIsForGood(states, labels, n, i, k);
    LookingNext(states, labels, n, i, k);
  }
}

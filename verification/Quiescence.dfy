/**
 Quiescence: in a calm run the operator starts at most one more apply run, and at most five of the calls that
 begin with the server at rest do not settle.
 */
module Quiescence {
  import opened Options
  import opened Machine
  import opened MachineInvariants
  import opened Safety
  import opened Mirroring
  import opened Calm
  import opened CalmWrites

  /** A run from the start in which, from step `n` on, nothing fails and nobody edits anything. */
  ghost predicate IsUndisturbed(states: seq<Sys>, labels: seq<Label>, n: nat) {
    && IsRun(states, labels) && Init(states[0]) && n < |states|
    && forall i :: n <= i < |labels| ==> CalmStep(labels[i])
  }

  /** And at that point the operator is idle, and the object is not marked, and can be run. */
  ghost predicate IsCalmRun(states: seq<Sys>, labels: seq<Label>, n: nat) {
    IsUndisturbed(states, labels, n) && states[n].phase == Idle && CalmInv(states[n])
  }

  /** What every reachable state meets. */
  lemma ReachableIsSound(states: seq<Sys>, labels: seq<Label>, k: nat)
    requires IsRun(states, labels) && Init(states[0]) && k < |states|
    ensures Inv(states[k]) && MirrorInv(states[k])
  {
    InitIsSafe(states[0]);
    RunIsSafe(states, labels, k);
    InitMirrors(states[0]);
    RunMirrors(states, labels, k);
  }

  lemma MoveNext(states: seq<Sys>, labels: seq<Label>, n: nat, k: nat, r: nat, rest: bool)
    requires IsUndisturbed(states, labels, n) && n <= k < |labels| && ServerMove(labels[k])
    requires CalmInv(states[k]) && CallInv(states[k], r, rest)
    ensures CalmInv(states[k + 1]) && CallInv(states[k + 1], r, rest)
  {
    assert StepAt(states, labels, k);
    ReachableIsSound(states, labels, k);
    MoveDescends(states[k], r, rest, labels[k]);
  }

  lemma FetchNext(states: seq<Sys>, labels: seq<Label>, n: nat, k: nat, r: nat, rest: bool)
    requires IsUndisturbed(states, labels, n) && n <= k < |labels| && states[k].phase == Idle && !ServerMove(labels[k])
    requires CalmInv(states[k]) && Rank(states[k]) <= r && (rest ==> Resting(states[k].live.value, states[k].cloud))
    ensures CalmInv(states[k + 1]) && CallInv(states[k + 1], r, rest)
  {
    assert StepAt(states, labels, k);
    IdleStepDescends(states[k], r, rest, labels[k]);
  }

  lemma CallNext(states: seq<Sys>, labels: seq<Label>, n: nat, k: nat, r: nat, rest: bool)
    requires IsUndisturbed(states, labels, n) && n <= k < |labels| && states[k].phase != Idle && !ServerMove(labels[k])
    requires CalmInv(states[k]) && CallInv(states[k], r, rest)
    ensures CalmInv(states[k + 1]) && CallInv(states[k + 1], r, rest)
  {
    assert StepAt(states, labels, k);
    ReachableIsSound(states, labels, k);
    StepDescends(states[k], r, rest, labels[k]);
  }

  predicate Within(s: Sys, r: nat) { CalmInv(s) && CallInv(s, r, false) }

  lemma WithinNext(states: seq<Sys>, labels: seq<Label>, n: nat, k: nat, r: nat)
    requires IsUndisturbed(states, labels, n) && n <= k < |labels| && Within(states[k], r)
    ensures Within(states[k + 1], r)
  {
    if ServerMove(labels[k]) { MoveNext(states, labels, n, k, r, false); }
    else if states[k].phase == Idle { FetchNext(states, labels, n, k, r, false); }
    else { CallNext(states, labels, n, k, r, false); }
  }

  predicate WithinAt(states: seq<Sys>, k: nat, r: nat) { k < |states| && Within(states[k], r) }

  predicate WithinOn(states: seq<Sys>, k: nat, r: nat) { WithinAt(states, k, r) ==> WithinAt(states, k + 1, r) }

  lemma WithinOnAlways(states: seq<Sys>, labels: seq<Label>, n: nat, r: nat)
    requires IsUndisturbed(states, labels, n)
    ensures forall k: nat :: n <= k < |labels| ==> WithinOn(states, k, r)
  {
    forall k: nat | n <= k < |labels| && WithinAt(states, k, r) ensures WithinAt(states, k + 1, r) {
      WithinNext(states, labels, n, k, r);
    }
  }

  lemma {:induction false} WithinAlong(states: seq<Sys>, i: nat, k: nat, r: nat)
    requires i <= k && WithinAt(states, i, r) && forall j: nat :: i <= j < k ==> WithinOn(states, j, r)
    ensures WithinAt(states, k, r)
    decreases k
  {
    if i < k {
      WithinAlong(states, i, k - 1, r);
      assert WithinOn(states, k - 1, r);
    }
  }

  lemma WithinFrom(states: seq<Sys>, labels: seq<Label>, n: nat, i: nat, k: nat, r: nat)
    requires IsUndisturbed(states, labels, n) && n <= i <= k < |states| && Within(states[i], r)
    ensures Within(states[k], r)
  {
    WithinOnAlways(states, labels, n, r);
    WithinAlong(states, i, k, r);
  }

  lemma WithinSinceCalm(states: seq<Sys>, labels: seq<Label>, n: nat, k: nat)
    requires IsCalmRun(states, labels, n) && n <= k < |states|
    ensures Within(states[k], Rank(states[n]))
  {
    WithinFrom(states, labels, n, n, k, Rank(states[n]));
  }

  /****** At most one more run ******/

  /** A run was created, and either its record is being written or nothing is owed any more. */
  predicate RunStarted(s: Sys) { CalmInv(s) && (s.phase.RecordingRun? || CallInv(s, 1, false)) }

  lemma RunStartedNext(states: seq<Sys>, labels: seq<Label>, n: nat, k: nat)
    requires IsUndisturbed(states, labels, n) && n <= k < |labels| && RunStarted(states[k])
    ensures RunStarted(states[k + 1]) && !labels[k].CreateRun?
  {
    if CallInv(states[k], 1, false) {
      WithinNext(states, labels, n, k, 1);
      NothingOwedNothingCreated(states, labels, k);
    } else {
      assert StepAt(states, labels, k);
      RecordingLeads(states[k], labels[k]);
    }
  }

  lemma NothingOwedNothingCreated(states: seq<Sys>, labels: seq<Label>, k: nat)
    requires IsRun(states, labels) && k < |labels| && CalmInv(states[k]) && CallInv(states[k], 1, false)
    ensures !labels[k].CreateRun?
  {
    assert StepAt(states, labels, k);
  }

  lemma RecordingLeads(s: Sys, l: Label)
    requires CalmInv(s) && s.phase.RecordingRun? && At(s, l) && CalmStep(l)
    ensures RunStarted(Step(s, l)) && !l.CreateRun?
  {
    if l.WriteStatus? {
      RecordRunDescends(s, 2, false, l.written);
    } else {
      RecordingWaits(s, l);
    }
  }

  lemma RecordingWaits(s: Sys, l: Label)
    requires CalmInv(s) && s.phase.RecordingRun? && At(s, l) && CalmStep(l) && !l.WriteStatus?
    ensures CalmInv(Step(s, l)) && Step(s, l).phase.RecordingRun? && !l.CreateRun?
  {
    OnlyMovesWhileRecording(s, l);
  }

  lemma OnlyMovesWhileRecording(s: Sys, l: Label)
    requires s.phase.RecordingRun? && At(s, l) && CalmStep(l) && !l.WriteStatus?
    ensures ServerMove(l) && Step(s, l).phase == s.phase && Step(s, l).mem == s.mem && Step(s, l).live == s.live
    ensures Step(s, l).cluster == s.cluster && Step(s, l).cloud.held == s.cloud.held
  {
  }

  lemma CreationStarts(states: seq<Sys>, labels: seq<Label>, n: nat, k: nat)
    requires IsCalmRun(states, labels, n) && n <= k < |labels| && labels[k].CreateRun?
    ensures RunStarted(states[k + 1])
  {
    WithinSinceCalm(states, labels, n, k + 1);
    assert StepAt(states, labels, k);
    CreationLeads(states[k], labels[k]);
  }

  lemma CreationLeads(s: Sys, l: Label)
    requires At(s, l) && l.CreateRun? && CalmStep(l)
    ensures Step(s, l).phase.RecordingRun?
  {
  }

  predicate StartedAt(states: seq<Sys>, k: nat) { k < |states| && RunStarted(states[k]) }

  predicate StartedOn(states: seq<Sys>, k: nat) { StartedAt(states, k) ==> StartedAt(states, k + 1) }

  lemma StartedOnAlways(states: seq<Sys>, labels: seq<Label>, n: nat)
    requires IsUndisturbed(states, labels, n)
    ensures forall k: nat :: n <= k < |labels| ==> StartedOn(states, k)
  {
    forall k: nat | n <= k < |labels| && StartedAt(states, k) ensures StartedAt(states, k + 1) {
      RunStartedNext(states, labels, n, k);
    }
  }

  lemma {:induction false} StartedAlong(states: seq<Sys>, i: nat, k: nat)
    requires i <= k && StartedAt(states, i) && forall j: nat :: i <= j < k ==> StartedOn(states, j)
    ensures StartedAt(states, k)
    decreases k
  {
    if i < k {
      StartedAlong(states, i, k - 1);
      assert StartedOn(states, k - 1);
    }
  }

  lemma StartedFrom(states: seq<Sys>, labels: seq<Label>, n: nat, i: nat, k: nat)
    requires IsUndisturbed(states, labels, n) && n <= i <= k < |states| && RunStarted(states[i])
    ensures RunStarted(states[k])
  {
    StartedOnAlways(states, labels, n);
    StartedAlong(states, i, k);
  }

  /** From the point on where a run becomes calm, at most one apply run is created ... */
  lemma AtMostOneMoreRun(states: seq<Sys>, labels: seq<Label>, n: nat, i: nat, k: nat)
    requires IsCalmRun(states, labels, n) && n <= i < k < |labels| && labels[i].CreateRun?
    ensures !labels[k].CreateRun?
  {
    CreationStarts(states, labels, n, i);
    StartedFrom(states, labels, n, i + 1, k);
    RunStartedNext(states, labels, n, k);
  }

  /** ... and none, if nothing is owed at that point. */
  lemma NoRunWhenNothingIsOwed(states: seq<Sys>, labels: seq<Label>, n: nat, k: nat)
    requires IsCalmRun(states, labels, n) && n <= k < |labels| && Clean(states[n])
    ensures !labels[k].CreateRun?
  {
    StartedFrom(states, labels, n, n, k);
    RunStartedNext(states, labels, n, k);
  }

  /****** At most five calls that do not settle ******/

  /** Steps `i` to `j` are one call of Reconcile, with what else happens meanwhile. */
  predicate IsCall(states: seq<Sys>, labels: seq<Label>, i: nat, j: nat)
    requires |states| == |labels| + 1
  {
    && i < j < |states| && states[i].phase == Idle && !ServerMove(labels[i])
    && (forall k :: i < k < j ==> BusyAt(states, k)) && states[j].phase == Idle
  }

  predicate Under(s: Sys, r: nat) { CalmInv(s) && CallInv(s, r, true) }

  lemma UnderNext(states: seq<Sys>, labels: seq<Label>, n: nat, k: nat, r: nat)
    requires IsUndisturbed(states, labels, n) && n <= k < |labels| && BusyAt(states, k) && Under(states[k], r)
    ensures Under(states[k + 1], r)
  {
    if ServerMove(labels[k]) { MoveNext(states, labels, n, k, r, true); }
    else { CallNext(states, labels, n, k, r, true); }
  }

  predicate UnderAt(states: seq<Sys>, k: nat, r: nat) { k < |states| && Under(states[k], r) }

  predicate UnderOn(states: seq<Sys>, k: nat, r: nat) { UnderAt(states, k, r) ==> UnderAt(states, k + 1, r) }

  lemma UnderOnAlways(states: seq<Sys>, labels: seq<Label>, n: nat, i: nat, j: nat, r: nat)
    requires IsUndisturbed(states, labels, n) && n <= i <= j < |states| && forall k :: i <= k < j ==> BusyAt(states, k)
    ensures forall k: nat :: i <= k < j ==> UnderOn(states, k, r)
  {
    forall k: nat | i <= k < j && UnderAt(states, k, r) ensures UnderAt(states, k + 1, r) {
      assert BusyAt(states, k);
      UnderNext(states, labels, n, k, r);
    }
  }

  lemma {:induction false} UnderAlong(states: seq<Sys>, i: nat, j: nat, r: nat)
    requires i <= j && UnderAt(states, i, r) && forall k: nat :: i <= k < j ==> UnderOn(states, k, r)
    ensures UnderAt(states, j, r)
    decreases j
  {
    if i < j {
      UnderAlong(states, i, j - 1, r);
      assert UnderOn(states, j - 1, r);
    }
  }

  lemma UnderFrom(states: seq<Sys>, labels: seq<Label>, n: nat, i: nat, j: nat, r: nat)
    requires IsUndisturbed(states, labels, n) && n <= i <= j < |states| && Under(states[i], r)
    requires forall k :: i <= k < j ==> BusyAt(states, k)
    ensures Under(states[j], r)
  {
    UnderOnAlways(states, labels, n, i, j, r);
    UnderAlong(states, i, j, r);
  }

  /** A call that begins with the server at rest settles, with nothing owed, or lowers the rank. */
  lemma CallDescends(states: seq<Sys>, labels: seq<Label>, n: nat, i: nat, j: nat)
    requires IsUndisturbed(states, labels, n) && n <= i && IsCall(states, labels, i, j)
    requires CalmInv(states[i]) && Resting(states[i].live.value, states[i].cloud)
    ensures CalmInv(states[j])
    ensures (states[j].returned == Settled && Rank(states[j]) == 0) || Rank(states[j]) < Rank(states[i])
  {
    FetchNext(states, labels, n, i, Rank(states[i]), true);
    UnderFrom(states, labels, n, i + 1, j, Rank(states[i]));
  }

  /** Between any two points between calls, the rank has not risen. */
  lemma RankNeverRises(states: seq<Sys>, labels: seq<Label>, n: nat, i: nat, k: nat)
    requires IsCalmRun(states, labels, n) && n <= i <= k < |states| && states[i].phase == Idle &&
             states[k].phase == Idle
    ensures CalmInv(states[i]) && CalmInv(states[k]) && Rank(states[k]) <= Rank(states[i])
  {
    WithinSinceCalm(states, labels, n, i);
    WithinFrom(states, labels, n, i, k, Rank(states[i]));
  }

  datatype Span = Span(from: nat, to: nat)

  /** Calls, one after the other, that began with the server at rest and did not settle. */
  predicate Unsettled(states: seq<Sys>, labels: seq<Label>, calls: seq<Span>)
    requires |states| == |labels| + 1
  {
    && (forall c :: 0 <= c < |calls| ==>
          && IsCall(states, labels, calls[c].from, calls[c].to)
          && states[calls[c].from].live.Some? && Resting(states[calls[c].from].live.value, states[calls[c].from].cloud)
          && states[calls[c].to].returned != Settled)
    && (forall c :: 0 <= c < |calls| - 1 ==> calls[c].to <= calls[c + 1].from)
  }

  lemma {:induction false} UnsettledCallsUseUpRank(states: seq<Sys>, labels: seq<Label>, n: nat, calls: seq<Span>)
    requires IsCalmRun(states, labels, n) && Unsettled(states, labels, calls) && calls != [] && n <= calls[0].from
    ensures n <= calls[|calls| - 1].from && CalmInv(states[calls[0].from]) && CalmInv(states[calls[|calls| - 1].to])
    ensures Rank(states[calls[|calls| - 1].to]) + |calls| <= Rank(states[calls[0].from])
  {
    var last := calls[|calls| - 1];
    if |calls| == 1 {
      RankNeverRises(states, labels, n, last.from, last.from);
    } else {
      UnsettledCallsUseUpRank(states, labels, n, calls[..|calls| - 1]);
      RankNeverRises(states, labels, n, calls[|calls| - 2].to, last.from);
    }
    CallDescends(states, labels, n, last.from, last.to);
  }

  /** From the point on where a run becomes calm, at most five of the calls that begin with the server at rest do
      not settle. */
  lemma AtMostFiveUnsettledCalls(states: seq<Sys>, labels: seq<Label>, n: nat, calls: seq<Span>)
    requires IsCalmRun(states, labels, n) && Unsettled(states, labels, calls) && (calls != [] ==> n <= calls[0].from)
    ensures |calls| <= 5
  {
    if calls != [] {
      UnsettledCallsUseUpRank(states, labels, n, calls);
    }
  }
}

/**
 Reconciliation converges: in a calm run, of the calls that begin with the server at rest the sixth ends at the
 fixpoint at the latest, at most one apply run was created until then, and nothing is written ever after.
 */
module Convergence {
  import opened Options
  import opened Machine
  import opened MachineInvariants
  import opened Safety
  import opened Mirroring
  import opened Calm
  import CalmWrites
  import opened Quiescence
  import opened Fixpoint
  import opened SettledRuns
  import Notifications

  /****** The workspace is there once a call has looked for it ******/

  predicate Housed(s: Sys) { s.phase == ReadingWorkspace || s.phase == CreatingWorkspace || s.cloud.workspace.Some? }

  lemma SetupStaysHoused(s: Sys, l: Label)
    requires Housed(s) && SetupCall(l) && AtSetupCall(s, l) && CalmStep(l)
    ensures Housed(SetupStep(s, l))
  {
  }

  lemma SyncStaysHoused(s: Sys, l: Label)
    requires Housed(s) && SyncCall(l) && AtSyncCall(s, l)
    ensures Housed(SyncStep(s, l))
  {
  }

  lemma RunCallStaysHoused(s: Sys, l: Label)
    requires Housed(s) && RunCall(l) && AtRunCall(s, l)
    ensures Housed(RunStep(s, l))
  {
  }

  lemma ObjectCallLeavesWorkspace(s: Sys, l: Label)
    requires ObjectCall(l) && AtObjectCall(s, l)
    ensures ObjectStep(s, l).cloud.workspace == s.cloud.workspace
    ensures s.phase != ReadingWorkspace && s.phase != CreatingWorkspace
  {
  }

  lemma MoveStaysHoused(s: Sys, l: Label)
    requires Housed(s) && ServerMove(l)
    ensures Housed(ServerStep(s, l))
  {
  }

  lemma NoDeletionWhenCalm(s: Sys, l: Label)
    requires CalmInv(s) && CalmStep(l) && At(s, l)
    ensures !DeletionCall(l) && (OperatorCall(l) || ServerMove(l))
  {
  }

  lemma StepStaysHoused(s: Sys, l: Label)
    requires CalmInv(s) && Housed(s) && At(s, l) && CalmStep(l)
    ensures Housed(Step(s, l))
  {
    NoDeletionWhenCalm(s, l);
    if ServerMove(l) { MoveStaysHoused(s, l); }
    else if SetupCall(l) { SetupStaysHoused(s, l); }
    else if SyncCall(l) { SyncStaysHoused(s, l); }
    else if RunCall(l) { RunCallStaysHoused(s, l); }
    else { ObjectCallLeavesWorkspace(s, l); }
  }

  /** The workspace is there, and no two notifications of the spec have the same name. */
  predicate InPlace(s: Sys) {
    Housed(s) && s.live.Some? && Notifications.DistinctNames(s.live.value.spec.notifications)
  }

  predicate InPlaceAt(states: seq<Sys>, k: nat) { k < |states| && InPlace(states[k]) }

  predicate StaysOn(states: seq<Sys>, k: nat) { InPlaceAt(states, k) ==> InPlaceAt(states, k + 1) }

  lemma InPlaceNext(states: seq<Sys>, labels: seq<Label>, n: nat, k: nat)
    requires IsCalmRun(states, labels, n) && n <= k < |labels|
    ensures StaysOn(states, k)
  {
    WithinSinceCalm(states, labels, n, k);
    WithinSinceCalm(states, labels, n, k + 1);
    assert StepAt(states, labels, k);
    if InPlace(states[k]) {
      StepStaysHoused(states[k], labels[k]);
      StepKeepsSpec(states[k], labels[k]);
    }
  }

  lemma {:induction false} InPlaceFrom(states: seq<Sys>, labels: seq<Label>, n: nat, i: nat, k: nat)
    requires IsCalmRun(states, labels, n) && n <= i <= k < |states| && InPlaceAt(states, i)
    ensures InPlaceAt(states, k)
    decreases k
  {
    if i < k {
      InPlaceFrom(states, labels, n, i, k - 1);
      InPlaceNext(states, labels, n, k - 1);
      assert StaysOn(states, k - 1);
    }
  }

  predicate NamedAt(states: seq<Sys>, k: nat) {
    k < |states| && states[k].live.Some? && Notifications.DistinctNames(states[k].live.value.spec.notifications)
  }

  lemma {:induction false} NamedFrom(states: seq<Sys>, labels: seq<Label>, n: nat, k: nat)
    requires IsCalmRun(states, labels, n) && n <= k < |states| && NamedAt(states, n)
    ensures NamedAt(states, k)
    decreases k
  {
    if n < k {
      NamedFrom(states, labels, n, k - 1);
      NamedNext(states, labels, n, k - 1);
    }
  }

  lemma NamedNext(states: seq<Sys>, labels: seq<Label>, n: nat, k: nat)
    requires IsCalmRun(states, labels, n) && n <= k < |labels| && NamedAt(states, k)
    ensures NamedAt(states, k + 1)
  {
    WithinSinceCalm(states, labels, n, k);
    WithinSinceCalm(states, labels, n, k + 1);
    assert StepAt(states, labels, k);
    StepKeepsSpec(states[k], labels[k]);
  }

  /** After a call the workspace is there for good. */
  lemma CallFindsWorkspace(states: seq<Sys>, labels: seq<Label>, n: nat, i: nat, k: nat)
    requires IsCalmRun(states, labels, n) && n <= i < k < |states| && states[i].phase == Idle && !ServerMove(labels[i])
    requires NamedAt(states, n) && states[k].phase == Idle
    ensures InPlace(states[k]) && states[k].cloud.workspace.Some?
  {
    WithinSinceCalm(states, labels, n, i);
    NamedFrom(states, labels, n, i + 1);
    CallBegins(states, labels, i);
    InPlaceFrom(states, labels, n, i + 1, k);
    assert InPlaceAt(states, k);
  }

  lemma CallBegins(states: seq<Sys>, labels: seq<Label>, i: nat)
    requires IsRun(states, labels) && i < |labels| && CalmInv(states[i]) && states[i].phase == Idle
    requires !ServerMove(labels[i]) && CalmStep(labels[i])
    ensures states[i + 1].phase == ReadingWorkspace
  {
    assert StepAt(states, labels, i);
    CalmWrites.OnlyFetchAtIdle(states[i], labels[i]);
  }

  /****** Six calls are enough ******/

  /** Calls, one after the other, that began with the server at rest. */
  predicate Rested(states: seq<Sys>, labels: seq<Label>, calls: seq<Span>)
    requires |states| == |labels| + 1
  {
    && (forall c :: 0 <= c < |calls| ==> RestedCall(states, labels, calls[c]))
    && (forall c :: 0 <= c < |calls| - 1 ==> calls[c].to <= calls[c + 1].from)
  }

  predicate RestedCall(states: seq<Sys>, labels: seq<Label>, call: Span)
    requires |states| == |labels| + 1
  {
    && IsCall(states, labels, call.from, call.to)
    && states[call.from].live.Some? && Resting(states[call.from].live.value, states[call.from].cloud)
  }

  /** Every such call uses up some of the rank, until nothing is left of it. */
  lemma {:induction false} RankRunsOut(states: seq<Sys>, labels: seq<Label>, n: nat, calls: seq<Span>)
    requires IsCalmRun(states, labels, n) && Rested(states, labels, calls) && calls != [] && n <= calls[0].from
    ensures var last := calls[|calls| - 1];
            n <= last.from && CalmInv(states[last.to]) &&
                (Rank(states[last.to]) == 0 || Rank(states[last.to]) + |calls| <= 5)
  {
    var last := calls[|calls| - 1];
    assert RestedCall(states, labels, last);
    if |calls| == 1 {
      RankNeverRises(states, labels, n, last.from, last.from);
    } else {
      var before := calls[|calls| - 2];
      RankRunsOut(states, labels, n, calls[..|calls| - 1]);
      assert RestedCall(states, labels, before);
      RankNeverRises(states, labels, n, before.to, last.from);
    }
    CallDescends(states, labels, n, last.from, last.to);
  }

  /** The sixth call at the latest ends at the fixpoint. */
  lemma SixCallsReachTheFixpoint(states: seq<Sys>, labels: seq<Label>, n: nat, calls: seq<Span>)
    requires IsCalmRun(states, labels, n) && NamedAt(states, n)
    requires |calls| >= 6 && Rested(states, labels, calls) && n <= calls[0].from
    requires Ended(states[calls[|calls| - 1].from].cloud.runs)
    ensures var end := calls[|calls| - 1].to; end < |states| && states[end].returned == Settled && FixedAt(states, end)
  {
    var last, before := calls[|calls| - 1], calls[|calls| - 2];
    RankRunsOut(states, labels, n, calls[..|calls| - 1]);
    assert RestedCall(states, labels, last) && RestedCall(states, labels, before);
    RankNeverRises(states, labels, n, before.to, last.from);
    CallFindsWorkspace(states, labels, n, before.from, last.from);
    NextCallReachesFixpoint(states, labels, n, last.from, last.to);
    WithinSinceCalm(states, labels, n, last.to);
  }

  /** From `end` on nothing is written, and every call settles. */
  predicate QuietFrom(states: seq<Sys>, end: nat) {
    && (forall k: nat :: end <= k < |states| ==> LookingAt(states, end, k))
    && (forall k: nat :: end <= k < |states| - 1 && BusyAt(states, k) && states[k + 1].phase == Idle ==>
          states[k + 1].returned == Settled)
  }

  lemma FixpointIsQuiet(states: seq<Sys>, labels: seq<Label>, n: nat, end: nat)
    requires IsUndisturbed(states, labels, n) && n <= end && FixedAt(states, end)
    ensures QuietFrom(states, end)
  {
    forall k: nat | end <= k < |states| ensures LookingAt(states, end, k) {
      FixpointIsForGood(states, labels, n, end, k);
    }
    forall k: nat | end <= k < |states| - 1 && BusyAt(states, k) && states[k + 1].phase == Idle
      ensures states[k + 1].returned == Settled
    {
      CallsSettleForGood(states, labels, n, end, k);
    }
  }

  /** Convergence, in one: a calm run creates at most one more apply run, comes to the fixpoint with the sixth
      rested call at the latest, and from then on writes nothing, and every call settles. */
  lemma ReconciliationConverges(states: seq<Sys>, labels: seq<Label>, n: nat, calls: seq<Span>)
    requires IsCalmRun(states, labels, n) && NamedAt(states, n)
    requires |calls| >= 6 && Rested(states, labels, calls) && n <= calls[0].from
    requires Ended(states[calls[|calls| - 1].from].cloud.runs)
    ensures var end := calls[|calls| - 1].to; end < |states| && FixedAt(states, end)
    ensures forall i, k :: n <= i < k < |labels| && labels[i].CreateRun? ==> !labels[k].CreateRun?
    ensures QuietFrom(states, calls[|calls| - 1].to)
  {
    SixCallsReachTheFixpoint(states, labels, n, calls);
    var end := calls[|calls| - 1].to;
    assert n <= end by { RankRunsOut(states, labels, n, calls); }
    forall i, k | n <= i < k < |labels| && labels[i].CreateRun? ensures !labels[k].CreateRun? {
      AtMostOneMoreRun(states, labels, n, i, k);
    }
    FixpointIsQuiet(states, labels, n, end);
  }
}

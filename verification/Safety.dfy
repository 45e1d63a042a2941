/**
 Safety over whole runs of the machine, with calls that fail, answers that are lost, crashes, and users and
 a server that act at any time.
 */
module Safety {
  import opened Options
  import opened Outcomes
  import opened Runs
  import opened Machine
  import opened MachineInvariants
  import opened MachineSafety
  import Finalizers
  import Notifications
  import RunTriggers
  import Variables

  /****** Runs of the machine ******/

  /** A new object, and a server without any run; a workspace of the name may be there. */
  ghost predicate Init(s: Sys) {
    && s.phase == Idle && s.lost == 0
    && s.live.Some? && !s.live.value.deleting && FINALIZER !in s.live.value.finalizers
    && s.live.value.status == Status(None, None, NoStatus, None, [])
    && (s.cloud.workspace.Some? ==> s.cloud.workspace.value < s.cloud.issued)
    && s.cloud.runs == [] && s.cloud.versions == []
    && Collected(s.cloud.held)
  }

  ghost predicate Collected(held: Collections) {
    && Variables.ValidRemote(held.variables) && Variables.DistinctKeys(held.variables)
    && RunTriggers.ValidRemote(held.triggers) && Notifications.ValidRemote(held.notifications)
  }

  /** `states` are what the steps `labels` lead through. */
  ghost predicate IsRun(states: seq<Sys>, labels: seq<Label>) {
    |states| == |labels| + 1 && forall i :: 0 <= i < |labels| ==> StepAt(states, labels, i)
  }

  ghost predicate StepAt(states: seq<Sys>, labels: seq<Label>, i: nat)
    requires |states| == |labels| + 1 && i < |labels|
  {
    Enabled(states[i], labels[i]) && states[i + 1] == Step(states[i], labels[i])
  }

  /** A call is under way. */
  predicate BusyAt(states: seq<Sys>, k: nat) { k < |states| && states[k].phase != Idle }

  lemma InitIsSafe(s: Sys)
    requires Init(s)
    ensures Inv(s)
  {
  }

  /** The invariant holds in every state of every run. */
  lemma {:induction false} RunIsSafe(states: seq<Sys>, labels: seq<Label>, n: nat)
    requires IsRun(states, labels) && Inv(states[0]) && n < |states|
    ensures Inv(states[n])
  {
    if n > 0 {
      RunIsSafe(states, labels, n - 1);
      SafeNext(states, labels, n - 1);
    }
  }

  lemma SafeNext(states: seq<Sys>, labels: seq<Label>, i: nat)
    requires IsRun(states, labels) && i < |labels| && Inv(states[i])
    ensures Inv(states[i + 1])
  {
    assert StepAt(states, labels, i);
    StepKeeps(states[i], labels[i]);
  }

  /****** At most one run, and one more for each that was lost ******/

  function Active(runs: seq<Run>): nat {
    if runs == [] then 0
    else
      var last := runs[|runs| - 1];
      Active(runs[..|runs| - 1]) + if last.kind.Apply? && IsPending(last.status) then 1 else 0
  }

  predicate NoRecordedActive(runs: seq<Run>) {
    forall i :: 0 <= i < |runs| && runs[i].recorded ==> !IsPending(runs[i].status)
  }

  lemma {:induction false} ActiveIsUnrecorded(runs: seq<Run>)
    requires NoRecordedActive(runs)
    ensures Active(runs) <= Unrecorded(runs)
  {
    if runs != [] {
      ActiveIsUnrecorded(runs[..|runs| - 1]);
    }
  }

  lemma {:induction false} ActiveIsAlmostUnrecorded(runs: seq<Run>)
    requires OneRecordedActive(runs)
    ensures Active(runs) <= Unrecorded(runs) + 1
  {
    if runs != [] {
      var before, last := runs[..|runs| - 1], runs[|runs| - 1];
      if last.recorded && IsPending(last.status) {
        assert NoRecordedActive(before);
        ActiveIsUnrecorded(before);
      } else {
        ActiveIsAlmostUnrecorded(before);
      }
    }
  }

  /** The apply runs under way number at most one more than the runs whose record was lost. */
  lemma AtMostOneRunMoreThanLost(s: Sys)
    requires Inv(s)
    ensures Active(s.cloud.runs) <= 1 + s.lost
  {
    if s.phase.RecordingRun? {
      ActiveIsUnrecorded(s.cloud.runs);
    } else {
      ActiveIsAlmostUnrecorded(s.cloud.runs);
    }
  }

  /** The steps by which a run is lost: its creation went through unheard, or the write of the status that
      follows it did not go through. */
  predicate Loses(s: Sys, l: Label) {
    || (l.CreateRun? && l.o.Lost?)
    || (s.phase.RecordingRun? && (l.Crash? || (l.WriteStatus? && !Persists(s, l.o))))
  }

  function Count(marks: seq<bool>): nat {
    if marks == [] then 0 else Count(marks[..|marks| - 1]) + if marks[|marks| - 1] then 1 else 0
  }

  /** How often a run was lost. */
  function Losses(states: seq<Sys>, labels: seq<Label>): nat
    requires |states| == |labels| + 1
  {
    Count(seq(|labels|, i requires 0 <= i < |labels| => Loses(states[i], labels[i])))
  }

  lemma {:induction false} CountSums(totals: seq<nat>, marks: seq<bool>)
    requires |totals| == |marks| + 1
    requires forall i :: 0 <= i < |marks| ==> totals[i + 1] == totals[i] + if marks[i] then 1 else 0
    ensures totals[|marks|] == totals[0] + Count(marks)
  {
    if marks != [] {
      CountSums(totals[..|marks|], marks[..|marks| - 1]);
    }
  }

  lemma CallCounts(s: Sys, l: Label)
    requires (DeletionCall(l) && AtDeletionCall(s, l)) || (SetupCall(l) && AtSetupCall(s, l)) ||
             (SyncCall(l) && AtSyncCall(s, l))
    ensures DeletionCall(l) ==> DeletionStep(s, l).lost == s.lost
    ensures SetupCall(l) ==> SetupStep(s, l).lost == s.lost
    ensures SyncCall(l) ==> SyncStep(s, l).lost == s.lost
    ensures !Loses(s, l)
  {
  }

  lemma RunCallCounts(s: Sys, l: Label)
    requires RunCall(l) && AtRunCall(s, l)
    ensures RunStep(s, l).lost == s.lost + if Loses(s, l) then 1 else 0
  {
  }

  lemma ObjectCallCounts(s: Sys, l: Label)
    requires ObjectCall(l) && AtObjectCall(s, l) && PhaseInv(s)
    ensures ObjectStep(s, l).lost == s.lost + if Loses(s, l) then 1 else 0
  {
  }

  lemma EventCounts(s: Sys, l: Label)
    requires !OperatorCall(l) && PhaseInv(s)
    ensures ServerMove(l) ==> ServerStep(s, l).lost == s.lost + if Loses(s, l) then 1 else 0
    ensures !ServerMove(l) ==> UserStep(s, l).lost == s.lost + if Loses(s, l) then 1 else 0
  {
  }

  lemma StepCounts(s: Sys, l: Label)
    requires At(s, l) && PhaseInv(s)
    ensures Step(s, l).lost == s.lost + if Loses(s, l) then 1 else 0
  {
    if DeletionCall(l) || SetupCall(l) || SyncCall(l) { CallCounts(s, l); }
    else if RunCall(l) { RunCallCounts(s, l); }
    else if ObjectCall(l) { ObjectCallCounts(s, l); }
    else { EventCounts(s, l); }
  }

  lemma LossesAt(states: seq<Sys>, labels: seq<Label>, i: nat)
    requires IsRun(states, labels) && Inv(states[0]) && i < |labels|
    ensures states[i + 1].lost == states[i].lost + if Loses(states[i], labels[i]) then 1 else 0
  {
    RunIsSafe(states, labels, i);
    assert StepAt(states, labels, i);
    StepCounts(states[i], labels[i]);
  }

  lemma LostIsCounted(states: seq<Sys>, labels: seq<Label>)
    requires IsRun(states, labels) && Inv(states[0])
    ensures states[|labels|].lost == states[0].lost + Losses(states, labels)
  {
    var totals: seq<nat> := seq(|states|, i requires 0 <= i < |states| => states[i].lost);
    var marks := seq(|labels|, i requires 0 <= i < |labels| => Loses(states[i], labels[i]));
    forall i | 0 <= i < |labels| ensures totals[i + 1] == totals[i] + if marks[i] then 1 else 0 {
      LossesAt(states, labels, i);
    }
    CountSums(totals, marks);
  }

  /** In every run from the start, the apply runs under way are at most one and one for each loss. */
  lemma ActiveRunsAreBounded(states: seq<Sys>, labels: seq<Label>)
    requires IsRun(states, labels) && Init(states[0])
    ensures Active(states[|labels|].cloud.runs) <= 1 + Losses(states, labels)
  {
    InitIsSafe(states[0]);
    LostIsCounted(states, labels);
    RunIsSafe(states, labels, |labels|);
    AtMostOneRunMoreThanLost(states[|labels|]);
  }

  /****** What the status says of runs ******/

  /** In the cluster, the status of the run is a past observation of the tracked run, or the final one of an
      older run; and no run that it ever took note of is under way without being the tracked one. */
  lemma RunStatusIsAnObservation(states: seq<Sys>, labels: seq<Label>, n: nat)
    requires IsRun(states, labels) && Init(states[0]) && n < |states| && states[n].live.Some?
    ensures Tracks(states[n].live.value.status, states[n].cloud.runs)
  {
    InitIsSafe(states[0]);
    RunIsSafe(states, labels, n);
  }

  /** Only three kinds of calls touch the object. */
  lemma CallLeavesObject(s: Sys, l: Label)
    requires DeletionCall(l) || SetupCall(l) || SyncCall(l) || RunCall(l)
    ensures DeletionCall(l) ==> DeletionStep(s, l).live == s.live
    ensures SetupCall(l) ==> SetupStep(s, l).live == s.live
    ensures SyncCall(l) ==> SyncStep(s, l).live == s.live
    ensures RunCall(l) ==> RunStep(s, l).live == s.live
  {
  }

  /****** Finalizers ******/

  predicate Anchored(obj: Object) { FINALIZER in obj.finalizers }

  /** The finalizer is there at most once, and only with a workspace that the server handed out. */
  lemma FinalizerStandsForAWorkspace(states: seq<Sys>, labels: seq<Label>, n: nat)
    requires IsRun(states, labels) && Init(states[0]) && n < |states| && states[n].live.Some?
    ensures var obj := states[n].live.value;
            && AtMostOnce(obj.finalizers, FINALIZER)
            && (Anchored(obj) ==> obj.status.workspace.Some? && obj.status.workspace.value < states[n].cloud.issued)
  {
    InitIsSafe(states[0]);
    RunIsSafe(states, labels, n);
  }

  /** So the removal never runs off the end of the list, and takes away exactly the operator's finalizer. */
  lemma RemovalIsExact(states: seq<Sys>, labels: seq<Label>, n: nat)
    requires IsRun(states, labels) && Init(states[0]) && n < |labels|
    requires states[n].phase.RemovingFinalizer? && labels[n].WriteFinalizers?
    ensures var list := states[n].mem.finalizers;
            !Finalizers.Panics(list, FINALIZER) && labels[n].finalizers == Finalizers.Others(list, FINALIZER)
  {
    InitIsSafe(states[0]);
    RunIsSafe(states, labels, n);
    assert StepAt(states, labels, n);
    RemovalIsExactIn(states[n], labels[n]);
  }

  lemma RemovalIsExactIn(s: Sys, l: Label)
    requires Inv(s) && At(s, l) && s.phase.RemovingFinalizer? && l.WriteFinalizers?
    ensures !Finalizers.Panics(s.mem.finalizers, FINALIZER) &&
            l.finalizers == Finalizers.Others(s.mem.finalizers, FINALIZER)
  {
    Finalizers.RemovesSingle(s.mem.finalizers, FINALIZER);
  }

  /****** Configuration versions ******/

  /** No version is created while the status holds one, in memory or in the cluster. */
  lemma NoVersionIsCreatedWhileOneIsHeld(states: seq<Sys>, labels: seq<Label>, n: nat)
    requires IsRun(states, labels) && Init(states[0]) && n < |labels| && labels[n].CreateVersion?
    ensures states[n].mem.status.version.None?
    ensures states[n].live.Some? ==> states[n].live.value.status.version.None?
  {
    InitIsSafe(states[0]);
    RunIsSafe(states, labels, n);
    assert StepAt(states, labels, n);
    CreationNeedsNoVersion(states[n], labels[n]);
  }

  lemma CreationNeedsNoVersion(s: Sys, l: Label)
    requires PhaseInv(s) && CopyInv(s) && At(s, l) && l.CreateVersion?
    ensures s.mem.status.version.None? && (s.live.Some? ==> s.live.value.status.version.None?)
  {
  }

  /** A run for a version is created only when the version is off the status in the cluster, and had been
      stored there, was seen uploaded, and made no run before. */
  lemma RunComesAfterClearing(states: seq<Sys>, labels: seq<Label>, n: nat)
    requires IsRun(states, labels) && Init(states[0]) && n < |labels| && labels[n].CreateRun?
    requires states[n].phase.CreatingRun? && states[n].phase.cleared.Some?
    ensures states[n].live.Some? ==> states[n].live.value.status.version.None?
    ensures Ready(states[n].phase.cleared.value, states[n].cloud)
  {
    InitIsSafe(states[0]);
    RunIsSafe(states, labels, n);
    assert StepAt(states, labels, n);
    ClearedIsReady(states[n]);
  }

  lemma ClearedIsReady(s: Sys)
    requires PhaseInv(s) && CopyInv(s) && s.phase.CreatingRun? && s.phase.cleared.Some?
    ensures s.live.Some? ==> s.live.value.status.version.None?
    ensures Ready(s.phase.cleared.value, s.cloud)
  {
  }

  /** Each version makes at most one run, only after it was uploaded, and none while the status holds it. */
  lemma EachVersionRunsOnce(states: seq<Sys>, labels: seq<Label>, n: nat, i: nat, v: nat)
    requires IsRun(states, labels) && Init(states[0]) && n < |states|
    requires i < |states[n].cloud.runs| && states[n].cloud.runs[i].kind == Apply(Some(v))
    ensures v < |states[n].cloud.versions| && states[n].cloud.versions[v].status == Uploaded
    ensures forall j :: 0 <= j < |states[n].cloud.runs| && states[n].cloud.runs[j].kind == Apply(Some(v)) ==> j == i
    ensures states[n].live.Some? ==> states[n].live.value.status.version != Some(v)
  {
    InitIsSafe(states[0]);
    RunIsSafe(states, labels, n);
    VersionRunsOnce(states[n], i, v);
  }

  lemma VersionRunsOnce(s: Sys, i: nat, v: nat)
    requires VersionInv(s) && i < |s.cloud.runs| && s.cloud.runs[i].kind == Apply(Some(v))
    ensures v < |s.cloud.versions| && s.cloud.versions[v].status == Uploaded
    ensures forall j :: 0 <= j < |s.cloud.runs| && s.cloud.runs[j].kind == Apply(Some(v)) ==> j == i
    ensures s.live.Some? ==> s.live.value.status.version != Some(v)
  {
  }
}

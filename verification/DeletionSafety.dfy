/** The safety of deletion, over whole runs of the machine. */
module DeletionSafety {
  import opened Options
  import opened Outcomes
  import opened Runs
  import opened Machine
  import opened MachineInvariants
  import opened Safety
  import Finalizers

  /****** Deletion ******/

  /** The step takes the operator's finalizer off the object. */
  predicate TakesFinalizer(s: Sys, t: Sys) {
    s.live.Some? && Anchored(s.live.value) && (t.live.None? || !Anchored(t.live.value))
  }

  /** The workspace was found to be absent, or torn down: every run that was listed has ended or was
      force-cancelled, and the destroy run, if there was anything to destroy, has come to a good end. */
  predicate Earned(s: Sys, reason: Reason) {
    match reason
    case Absent => s.cloud.workspace != s.mem.status.workspace
    case TornDown(listed, destroyed) => Stopped(s.cloud.runs, listed, []) && Destroyed(s.cloud.runs, listed, destroyed)
    case _ => false
  }

  lemma OnlyRemovalTakes(s: Sys, l: Label)
    requires Inv(s) && At(s, l) && TakesFinalizer(s, Step(s, l))
    ensures l.WriteFinalizers? && s.phase.RemovingFinalizer? && Persists(s, l.o)
  {
    if ObjectCall(l) { ObjectCallTakes(s, l); }
    else if !OperatorCall(l) { EventTakesNothing(s, l); }
    else { CallLeavesObject(s, l); }
  }

  lemma ObjectCallTakes(s: Sys, l: Label)
    requires ObjectCall(l) && AtObjectCall(s, l) && CopyInv(s) && TakesFinalizer(s, ObjectStep(s, l))
    ensures l.WriteFinalizers? && s.phase.RemovingFinalizer? && Persists(s, l.o)
  {
  }

  lemma EventTakesNothing(s: Sys, l: Label)
    requires !OperatorCall(l) && AtUserStep(s, l)
    ensures ServerMove(l) ==> ServerStep(s, l).live == s.live
    ensures !ServerMove(l) ==> !TakesFinalizer(s, UserStep(s, l))
  {
  }

  /** The finalizer goes only when it was earned, or when the second look at the workspace failed. */
  lemma FinalizerGoesOnlyWhenEarned(states: seq<Sys>, labels: seq<Label>, n: nat)
    requires IsRun(states, labels) && Init(states[0]) && n < |labels|
    requires TakesFinalizer(states[n], states[n + 1])
    ensures states[n].phase.RemovingFinalizer? && states[n].mem.deleting
    ensures states[n].phase.reason == Unsure || Earned(states[n], states[n].phase.reason)
  {
    InitIsSafe(states[0]);
    RunIsSafe(states, labels, n);
    assert StepAt(states, labels, n);
    OnlyRemovalTakes(states[n], labels[n]);
    RemovalIsEarned(states[n], labels[n]);
  }

  lemma RemovalIsEarned(s: Sys, l: Label)
    requires Inv(s) && s.phase.RemovingFinalizer? && l.WriteFinalizers? && Persists(s, l.o) && s.live.Some? &&
             Anchored(s.live.value)
    ensures s.mem.deleting && (s.phase.reason == Unsure || Earned(s, s.phase.reason))
  {
  }

  lemma OnlyDeletionLeadsToTornDown(s: Sys, l: Label)
    requires At(s, l) && Step(s, l).phase.RemovingFinalizer? && Step(s, l).phase.reason.TornDown?
    ensures s.phase == Step(s, l).phase ||
            (l.DeleteWorkspace? && s.phase == DeletingWorkspace(Step(s, l).phase.reason.listed,
                Step(s, l).phase.reason.destroyed))
  {
    if DeletionCall(l) { DeletionLeadsToTornDown(s, l); }
    else if OperatorCall(l) { OtherCallsDoNotTearDown(s, l); }
    else { EventsDoNotTearDown(s, l); }
  }

  lemma DeletionLeadsToTornDown(s: Sys, l: Label)
    requires DeletionCall(l) && AtDeletionCall(s, l)
    requires DeletionStep(s, l).phase.RemovingFinalizer? && DeletionStep(s, l).phase.reason.TornDown?
    ensures var reason := DeletionStep(s, l).phase.reason;
            l.DeleteWorkspace? && s.phase == DeletingWorkspace(reason.listed, reason.destroyed)
  {
  }

  lemma SetupAndSyncDoNotTearDown(s: Sys, l: Label)
    ensures SetupCall(l) && AtSetupCall(s, l) ==> !SetupStep(s, l).phase.RemovingFinalizer?
    ensures SyncCall(l) && AtSyncCall(s, l) ==> !SyncStep(s, l).phase.RemovingFinalizer?
  {
  }

  lemma RunCallDoesNotTearDown(s: Sys, l: Label)
    requires RunCall(l) && AtRunCall(s, l)
    ensures !RunStep(s, l).phase.RemovingFinalizer?
  {
  }

  lemma ObjectCallDoesNotTearDown(s: Sys, l: Label)
    requires ObjectCall(l) && AtObjectCall(s, l)
    ensures !ObjectStep(s, l).phase.RemovingFinalizer?
  {
  }

  lemma OtherCallsDoNotTearDown(s: Sys, l: Label)
    requires OperatorCall(l) && !DeletionCall(l) && At(s, l)
    ensures !Step(s, l).phase.RemovingFinalizer?
  {
    if RunCall(l) { RunCallDoesNotTearDown(s, l); }
    else if ObjectCall(l) { ObjectCallDoesNotTearDown(s, l); }
    else { SetupAndSyncDoNotTearDown(s, l); }
  }

  lemma EventsDoNotTearDown(s: Sys, l: Label)
    ensures ServerMove(l) ==> ServerStep(s, l).phase == s.phase
    ensures !OperatorCall(l) && !ServerMove(l) ==> UserStep(s, l).phase == s.phase || UserStep(s, l).phase == Idle
  {
  }

  /** Before the finalizer goes because all was torn down, the deletion of the workspace was attempted, when
      the runs had been stopped and the destroy run had ended well. */
  lemma {:induction false} DeletionWasAttempted(states: seq<Sys>, labels: seq<Label>, n: nat) returns (i: nat)
    requires IsRun(states, labels) && Init(states[0]) && n < |states|
    requires states[n].phase.RemovingFinalizer? && states[n].phase.reason.TornDown?
    ensures i < n && labels[i].DeleteWorkspace?
    ensures var reason := states[n].phase.reason;
            Stopped(states[i].cloud.runs, reason.listed, []) &&
                Destroyed(states[i].cloud.runs, reason.listed, reason.destroyed)
    ensures forall j :: i < j <= n ==> states[j].phase == states[n].phase
  {
    CameFromDeletion(states, labels, n - 1);
    if states[n - 1].phase == states[n].phase {
      i := DeletionWasAttempted(states, labels, n - 1);
    } else {
      i := n - 1;
    }
  }

  lemma CameFromDeletion(states: seq<Sys>, labels: seq<Label>, i: nat)
    requires IsRun(states, labels) && Init(states[0]) && i < |labels|
    requires states[i + 1].phase.RemovingFinalizer? && states[i + 1].phase.reason.TornDown?
    ensures states[i].phase == states[i + 1].phase || DeletesStopped(states[i], labels[i], states[i + 1].phase.reason)
  {
    InitIsSafe(states[0]);
    RunIsSafe(states, labels, i);
    assert StepAt(states, labels, i);
    OnlyDeletionLeadsToTornDown(states[i], labels[i]);
  }

  /** The deletion of the workspace is attempted with the runs stopped and the destroy run ended well. */
  predicate DeletesStopped(s: Sys, l: Label, reason: Reason)
    requires reason.TornDown?
  {
    l.DeleteWorkspace? && Stopped(s.cloud.runs, reason.listed, []) &&
        Destroyed(s.cloud.runs, reason.listed, reason.destroyed)
  }

  /** When the workspace is there, the second look decides: only its success leads on to stopping the runs. */
  lemma SecondLookDecides(s: Sys, o: Outcome)
    requires s.phase == CheckingAgain && s.cloud.workspace == s.mem.status.workspace
    ensures AfterSecondCheck(s, o).phase == if o == Done then ListingRuns else RemovingFinalizer(Unsure)
  {
  }

  /** When it fails, the next call takes the finalizer off, with nothing stopped, destroyed or deleted. */
  lemma FailedSecondLookAbandons(s: Sys, o: Outcome)
    requires CopyInv(s) && SoundObject(s.mem, s.cloud) && s.phase == CheckingAgain && o != Done
    requires Fresh(s) && Anchored(s.mem)
    ensures var t := AfterSecondCheck(s, o);
            && At(t, WriteFinalizers(Finalizers.Left(s.mem.finalizers, FINALIZER), Done))
            && var u := AfterWriteFinalizers(t, Finalizers.Left(s.mem.finalizers, FINALIZER), Done);
               TakesFinalizer(t, u) && u.cloud == s.cloud
  {
    Finalizers.RemovesSingle(s.mem.finalizers, FINALIZER);
  }

  /****** What is marked for deletion ******/

  /** Nothing was created but destroy runs. */
  predicate NothingCreated(s: Sys, t: Sys) {
    && t.cloud.issued == s.cloud.issued && |s.cloud.runs| <= |t.cloud.runs|
    && (forall i :: 0 <= i < |s.cloud.runs| ==> t.cloud.runs[i].kind == s.cloud.runs[i].kind)
    && (forall i :: |s.cloud.runs| <= i < |t.cloud.runs| ==> t.cloud.runs[i].kind.Destroy?)
  }

  lemma DoomedStaysInDeletion(s: Sys, l: Label)
    requires Doomed(s) && CopyInv(s) && DeletionCall(l) && AtDeletionCall(s, l)
    ensures Doomed(DeletionStep(s, l)) && NothingCreated(s, DeletionStep(s, l))
  {
  }

  lemma DoomedStaysInObjectCall(s: Sys, l: Label)
    requires Doomed(s) && CopyInv(s) && ObjectCall(l) && AtObjectCall(s, l)
    ensures Doomed(ObjectStep(s, l)) && NothingCreated(s, ObjectStep(s, l))
  {
  }

  lemma DoomedStaysInMove(s: Sys, l: Label)
    requires Doomed(s) && ServerMove(l)
    ensures Doomed(ServerStep(s, l)) && NothingCreated(s, ServerStep(s, l))
  {
  }

  lemma DoomedStaysInUserStep(s: Sys, l: Label)
    requires Doomed(s) && CopyInv(s) && !OperatorCall(l) && !ServerMove(l) && AtUserStep(s, l)
    ensures Doomed(UserStep(s, l)) && NothingCreated(s, UserStep(s, l))
  {
  }

  lemma DoomedMakesNoOtherCall(s: Sys, l: Label)
    requires Doomed(s) && CopyInv(s) && At(s, l) && OperatorCall(l)
    ensures DeletionCall(l) || ObjectCall(l)
  {
  }

  /** Once the object is marked and no other call is under way, no apply run and no workspace is ever created. */
  lemma {:induction false} NothingIsCreatedOnceMarked(states: seq<Sys>, labels: seq<Label>, n: nat)
    requires IsRun(states, labels) && Inv(states[0]) && Doomed(states[0]) && n < |states|
    ensures Doomed(states[n]) && NothingCreated(states[0], states[n])
  {
    if n > 0 {
      NothingIsCreatedOnceMarked(states, labels, n - 1);
      DoomedNext(states, labels, n - 1);
      NothingTwice(states[0], states[n - 1], states[n]);
    }
  }

  lemma DoomedNext(states: seq<Sys>, labels: seq<Label>, i: nat)
    requires IsRun(states, labels) && Inv(states[0]) && i < |labels| && Doomed(states[i])
    ensures Doomed(states[i + 1]) && NothingCreated(states[i], states[i + 1])
  {
    RunIsSafe(states, labels, i);
    assert StepAt(states, labels, i);
    DoomedStays(states[i], labels[i]);
  }

  lemma NothingTwice(s: Sys, t: Sys, u: Sys)
    requires NothingCreated(s, t) && NothingCreated(t, u)
    ensures NothingCreated(s, u)
  {
    forall i | |s.cloud.runs| <= i < |u.cloud.runs| ensures u.cloud.runs[i].kind.Destroy? {
      if i < |t.cloud.runs| {
        assert u.cloud.runs[i].kind == t.cloud.runs[i].kind;
      }
    }
  }

  lemma DoomedStays(s: Sys, l: Label)
    requires Doomed(s) && CopyInv(s) && At(s, l)
    ensures Doomed(Step(s, l)) && NothingCreated(s, Step(s, l))
  {
    if OperatorCall(l) { DoomedStaysInCall(s, l); } else { DoomedStaysInEvent(s, l); }
  }

  lemma DoomedStaysInCall(s: Sys, l: Label)
    requires Doomed(s) && CopyInv(s) && At(s, l) && OperatorCall(l)
    ensures Doomed(Step(s, l)) && NothingCreated(s, Step(s, l))
  {
    DoomedMakesNoOtherCall(s, l);
    if DeletionCall(l) { DoomedStaysInDeletion(s, l); } else { DoomedStaysInObjectCall(s, l); }
  }

  lemma DoomedStaysInEvent(s: Sys, l: Label)
    requires Doomed(s) && CopyInv(s) && At(s, l) && !OperatorCall(l)
    ensures Doomed(Step(s, l)) && NothingCreated(s, Step(s, l))
  {
    if ServerMove(l) { DoomedStaysInMove(s, l); } else { DoomedStaysInUserStep(s, l); }
  }

  /** A call that creates a run or a workspace had read the object unmarked. */
  lemma CreationIsForAnUnmarkedCopy(states: seq<Sys>, labels: seq<Label>, n: nat)
    requires IsRun(states, labels) && Init(states[0]) && n < |labels|
    requires labels[n].CreateRun? || labels[n].CreateWorkspace?
    ensures !states[n].mem.deleting
    ensures states[n].live.Some? && states[n].live.value.deleting ==> !Fresh(states[n])
  {
    InitIsSafe(states[0]);
    RunIsSafe(states, labels, n);
    assert StepAt(states, labels, n);
    CreatorsCopyIsUnmarked(states[n], labels[n]);
  }

  lemma CreatorsCopyIsUnmarked(s: Sys, l: Label)
    requires CopyInv(s) && At(s, l) && (l.CreateRun? || l.CreateWorkspace?)
    ensures !s.mem.deleting && (s.live.Some? && s.live.value.deleting ==> !Fresh(s))
  {
  }

  /** But a mark that lands during a call does not stop it: the run is created for a marked object. */
  lemma MarkDoesNotStopTheCall(s: Sys, status: RunStatus)
    requires s.phase.CreatingRun? && s.live.Some? && s.live.value.finalizers != [] && status != NoStatus
    ensures At(s, Mark) && At(AfterMark(s), CreateRun(status, Done))
    ensures var t := AfterCreateRun(AfterMark(s), status, Done);
            && t.live.Some? && t.live.value.deleting && |t.cloud.runs| == |s.cloud.runs| + 1
            && t.cloud.runs[|s.cloud.runs|] == Run(Apply(s.phase.cleared), status, false, false)
  {
  }
}

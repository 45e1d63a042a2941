/** Every call of Reconcile comes to an end; a deletion that was cut short is taken up by the next call. */
module CallsEnd {
  import opened Options
  import opened Outcomes
  import opened Runs
  import opened Machine
  import opened MachineInvariants
  import opened Safety
  import opened Calm
  import CalmWrites
  import opened Quiescence
  import opened DeletionSafety
  import Finalizers

  /****** The way to the end of a call ******/

  /** How far the end of the call is at most, in calls to an API; cancelling the runs counts as one. */
  function Distance(p: Phase): nat {
    if InDeletion(p) then DeletionDistance(p)
    else if StartingRun(p) then StartDistance(p)
    else SetupDistance(p)
  }

  function DeletionDistance(p: Phase): nat {
    if p.RemovingFinalizer? then 1
    else if p.DeletingWorkspace? then 2
    else if p.Polling? then 3
    else if p.CreatingDestroyRun? then 4
    else if p.ReadingCurrentRun? then 5
    else if p.Cancelling? then 6
    else if p == ListingRuns then 7
    else if p == CheckingAgain then 8
    else 9
  }

  function StartDistance(p: Phase): nat {
    if p.RecordingRun? then 1
    else if p.CreatingRun? then 2
    else if p == ClearingVersion then 3
    else if p == ReadingVersion then 4
    else if p.StoringVersion? then 5
    else if p.Uploading? then 6
    else if p == CreatingVersion then 7
    else 8
  }

  function SetupDistance(p: Phase): nat {
    if p == Idle then 0
    else if p.SyncingTriggers? then 9
    else if p.SyncingVariables? then 10
    else if p == Templating then 11
    else if p == PublishingSecret then 12
    else if p.StoringOutputs? then 13
    else if p == ReadingState then 14
    else if p.StoringRunStatus? then 15
    else if p == ReadingRun then 16
    else if p == Notifying then 17
    else if p == AddingFinalizer then 18
    else if p.AdoptingRun? then 19
    else if p.StoringWorkspace? then 20
    else if p == CreatingWorkspace then 21
    else 22
  }

  function Todo(p: Phase): nat { if p.Cancelling? then |p.todo| else 0 }

  /** The end is nearer, or the call waits for the destroy run. */
  predicate Nearer(s: Sys, t: Sys) {
    || Distance(t.phase) < Distance(s.phase)
    || (Distance(t.phase) == Distance(s.phase) && Todo(t.phase) < Todo(s.phase))
    || (s.phase.Polling? && t == s && s.phase.run < |s.cloud.runs| && IsPending(s.cloud.runs[s.phase.run].status))
  }

  lemma DeletionCallNears(s: Sys, l: Label)
    requires DeletionCall(l) && AtDeletionCall(s, l) && PhaseInv(s)
    ensures Nearer(s, DeletionStep(s, l))
  {
    if l.ForceCancel? {
      assert s.phase.todo[0] in s.phase.todo;
    }
  }

  lemma FirstCallsNear(s: Sys, l: Label)
    requires (l.ReadWorkspace? || l.CreateWorkspace? || l.Notify?) && AtSetupCall(s, l)
    ensures Nearer(s, SetupStep(s, l))
  {
  }

  lemma RunAndStateNear(s: Sys, l: Label)
    requires (l.ReadRun? || l.ReadState? || l.PutSecret?) && AtSetupCall(s, l)
    ensures Nearer(s, SetupStep(s, l))
  {
  }

  lemma SetupCallNears(s: Sys, l: Label)
    requires SetupCall(l) && AtSetupCall(s, l)
    ensures Nearer(s, SetupStep(s, l))
  {
    if l.ReadRun? || l.ReadState? || l.PutSecret? { RunAndStateNear(s, l); } else { FirstCallsNear(s, l); }
  }

  lemma SyncCallNears(s: Sys, l: Label)
    requires SyncCall(l) && AtSyncCall(s, l)
    ensures Nearer(s, SyncStep(s, l))
  {
  }

  lemma RunCallNears(s: Sys, l: Label)
    requires RunCall(l) && AtRunCall(s, l) && PhaseInv(s)
    ensures Nearer(s, RunStep(s, l))
  {
  }

  lemma StatusWriteNears(s: Sys, status: Status, o: Outcome)
    requires NextStatus(s) == Some(status)
    ensures Nearer(s, AfterWriteStatus(s, status, o))
  {
  }

  lemma FinalizersWriteNears(s: Sys, finalizers: seq<string>, o: Outcome)
    requires NextFinalizers(s) == Some(finalizers)
    ensures Nearer(s, AfterWriteFinalizers(s, finalizers, o))
  {
  }

  lemma WriteNears(s: Sys, l: Label)
    requires ObjectCall(l) && AtObjectCall(s, l) && s.phase != Idle
    ensures Nearer(s, ObjectStep(s, l))
  {
    if l.WriteStatus? { StatusWriteNears(s, l.written, l.o); } else { FinalizersWriteNears(s, l.finalizers, l.o); }
  }

  /** Whatever becomes of it, every call to an API brings Reconcile nearer to its end, unless it polls a destroy
      run that is not over; a crash ends it. */
  lemma EveryStepNears(s: Sys, l: Label)
    requires At(s, l) && PhaseInv(s) && OperatorCall(l) && s.phase != Idle
    ensures Nearer(s, Step(s, l))
  {
    if DeletionCall(l) { DeletionCallNears(s, l); }
    else if SetupCall(l) { SetupCallNears(s, l); }
    else if SyncCall(l) { SyncCallNears(s, l); }
    else if RunCall(l) { RunCallNears(s, l); }
    else { WriteNears(s, l); }
  }

  /****** Deletion starts over ******/

  /** The object is marked and still has the operator's finalizer; a call that is under way deletes it. */
  predicate Deleting(s: Sys) {
    && s.live.Some? && s.live.value.deleting && Anchored(s.live.value)
    && (s.phase != Idle ==> InDeletion(s.phase) && s.live == Some(s.mem))
    && (s.phase.RemovingFinalizer? ==> s.phase.reason.Absent? || s.phase.reason.TornDown?)
  }

  predicate Gone(s: Sys) { s.live.None? || !Anchored(s.live.value) }

  /** The destroy run was found to have errored. */
  predicate DestroyErrored(s: Sys, l: Label) {
    l.Poll? && s.phase.Polling? && s.phase.run < |s.cloud.runs| && IsError(s.cloud.runs[s.phase.run].status)
  }

  lemma DeletionCallGoesOn(s: Sys, l: Label)
    requires Deleting(s) && PhaseInv(s) && SoundObject(s.mem, s.cloud) && DeletionCall(l) && AtDeletionCall(s, l) &&
             CalmStep(l)
    ensures var t := DeletionStep(s, l); Deleting(t) && (t.phase == Idle ==> DestroyErrored(s, l))
  {
    if l.ForceCancel? {
      assert s.phase.todo[0] in s.phase.todo;
    }
  }

  lemma RemovalIsTheOnlyWrite(s: Sys, l: Label)
    requires Deleting(s) && ObjectCall(l) && AtObjectCall(s, l) && CalmStep(l) && s.phase != Idle
    ensures l.WriteFinalizers? && l.o == Done && s.phase.RemovingFinalizer? && Fresh(s)
    ensures l.finalizers == Finalizers.Left(s.mem.finalizers, FINALIZER)
  {
  }

  lemma RemovalEnds(s: Sys, l: Label)
    requires Deleting(s) && SoundObject(s.mem, s.cloud) && ObjectCall(l) && AtObjectCall(s, l) && CalmStep(l) &&
             s.phase != Idle
    ensures ObjectStep(s, l).phase == Idle && Gone(ObjectStep(s, l))
  {
    RemovalIsTheOnlyWrite(s, l);
    Finalizers.RemovesSingle(s.mem.finalizers, FINALIZER);
  }

  lemma MoveGoesOn(s: Sys, l: Label)
    requires Deleting(s) && ServerMove(l)
    ensures Deleting(ServerStep(s, l)) && ServerStep(s, l).phase == s.phase
  {
  }

  lemma NotInDeletion(s: Sys, l: Label)
    requires Deleting(s) && s.phase != Idle && At(s, l) && CalmStep(l)
    ensures DeletionCall(l) || ObjectCall(l) || ServerMove(l)
  {
  }

  lemma StepGoesOn(s: Sys, l: Label)
    requires Deleting(s) && PhaseInv(s) && ObjectInv(s) && s.phase != Idle && At(s, l) && CalmStep(l)
    ensures var t := Step(s, l); if t.phase == Idle then Gone(t) || DestroyErrored(s, l) else Deleting(t)
  {
    NotInDeletion(s, l);
    if DeletionCall(l) { DeletionCallGoesOn(s, l); }
    else if ObjectCall(l) { RemovalEnds(s, l); }
    else { MoveGoesOn(s, l); }
  }

  predicate DeletingAt(states: seq<Sys>, k: nat) { k < |states| && states[k].phase != Idle && Deleting(states[k]) }

  lemma DeletingNext(states: seq<Sys>, labels: seq<Label>, n: nat, k: nat)
    requires IsUndisturbed(states, labels, n) && n <= k < |labels| && DeletingAt(states, k)
    ensures if states[k + 1].phase == Idle then Gone(states[k + 1]) || DestroyErrored(states[k], labels[k])
            else DeletingAt(states, k + 1)
  {
    ReachableIsSound(states, labels, k);
    assert StepAt(states, labels, k);
    StepGoesOn(states[k], labels[k]);
  }

  lemma {:induction false} DeletingThroughout(states: seq<Sys>, labels: seq<Label>, n: nat, i: nat, k: nat)
    requires IsUndisturbed(states, labels, n) && n <= i <= k < |states| && DeletingAt(states, i)
    requires forall m :: i < m <= k ==> BusyAt(states, m)
    ensures DeletingAt(states, k)
  {
    if i < k {
      DeletingThroughout(states, labels, n, i, k - 1);
      assert BusyAt(states, k);
      DeletingNext(states, labels, n, k - 1);
    }
  }

  lemma DeletionBegins(states: seq<Sys>, labels: seq<Label>, n: nat, i: nat)
    requires IsUndisturbed(states, labels, n) && n <= i < |labels| && states[i].phase == Idle &&
             Deleting(states[i]) && !ServerMove(labels[i])
    ensures DeletingAt(states, i + 1)
  {
    assert StepAt(states, labels, i);
    CalmWrites.OnlyFetchAtIdle(states[i], labels[i]);
  }

  /** Whatever was cut short before: of a marked object that has the finalizer, the next undisturbed call removes it,
      unless the destroy run errors. */
  lemma DeletionIsRestartable(states: seq<Sys>, labels: seq<Label>, n: nat, i: nat, j: nat)
    requires IsUndisturbed(states, labels, n) && n <= i && IsCall(states, labels, i, j) && Deleting(states[i])
    ensures Gone(states[j]) || DestroyErrored(states[j - 1], labels[j - 1])
  {
    DeletionBegins(states, labels, n, i);
    DeletingThroughout(states, labels, n, i + 1, j - 1);
    DeletingNext(states, labels, n, j - 1);
  }
}

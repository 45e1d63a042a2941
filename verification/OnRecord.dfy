/** What is on record whenever a call of Reconcile acts: the workspace, its latest run and the finalizer. */
module OnRecord {
  import opened Options
  import opened Outcomes
  import opened Runs
  import opened Machine
  import opened MachineInvariants
  import opened Mirroring
  import opened Safety
  import DeletionSafety
  import Reasons

  /** The call has adopted the current run, if it tracked one. */
  predicate Adopted(p: Phase) {
    p.AddingFinalizer? || p.Notifying? || Notified(p) || (StartingRun(p) && !p.RecordingRun?)
  }

  /** The call has found or made the workspace. */
  predicate Found(p: Phase) { p.StoringWorkspace? || p.AdoptingRun? || p.RecordingRun? || Adopted(p) }

  predicate TracksLatest(st: Status, c: Cloud) { st.run.Some? ==> st.run == CurrentRun(c) }

  /** The workspace's id was written to the status. */
  predicate Stored(p: Phase) { Found(p) && !p.StoringWorkspace? }

  /** The finalizer was written to the object. */
  predicate Guarded(p: Phase) { p.Notifying? || Notified(p) || StartingRun(p) }

  predicate LatestInv(s: Sys) {
    && (Found(s.phase) ==> s.cloud.workspace.Some?)
    && (s.phase.StoringWorkspace? ==> s.cloud.workspace == Some(s.phase.id))
    && (Stored(s.phase) ==> s.mem.status.workspace == s.cloud.workspace)
    && (Guarded(s.phase) ==> FINALIZER in s.mem.finalizers)
    && (s.phase == CreatingWorkspace ==> s.cloud.workspace.None?)
    && (s.cloud.workspace.None? && s.cloud.runs != [] ==> Doomed(s))
    && (s.phase.StoringWorkspace? ==> s.phase.current == CurrentRun(s.cloud))
    && (s.phase.AdoptingRun? ==> Some(s.phase.latest) == CurrentRun(s.cloud))
    && (Adopted(s.phase) ==> TracksLatest(s.mem.status, s.cloud))
  }

  /** The server has the same workspace and as many runs. */
  predicate SameServer(s: Sys, t: Sys) {
    t.cloud.workspace == s.cloud.workspace && |t.cloud.runs| == |s.cloud.runs|
  }

  lemma DeletionKeepsServer(s: Sys, l: Label)
    requires DeletionCall(l) && AtDeletionCall(s, l)
    ensures var t := DeletionStep(s, l);
            && (t.phase == Idle || InDeletion(t.phase)) && t.live == s.live
            && (l.DeleteWorkspace? || t.cloud.workspace == s.cloud.workspace)
            && (l.CreateDestroyRun? || |t.cloud.runs| == |s.cloud.runs|)
  {
  }

  lemma DeletionKeepsLatest(s: Sys, l: Label)
    requires LatestInv(s) && CopyInv(s) && DeletionCall(l) && AtDeletionCall(s, l)
    requires l.CreateDestroyRun? ==> s.cloud.workspace.Some?
    ensures LatestInv(DeletionStep(s, l))
  {
    DeletionKeepsServer(s, l);
  }

  lemma FindingKeepsLatest(s: Sys, l: Label)
    requires LatestInv(s) && (l.ReadWorkspace? || l.CreateWorkspace?) && AtSetupCall(s, l)
    requires Reasons.RunOnRecordIsThere(s)
    ensures LatestInv(SetupStep(s, l))
  {
  }

  lemma OtherSetupKeepsLatest(s: Sys, l: Label)
    requires SetupCall(l) && !l.ReadWorkspace? && !l.CreateWorkspace? && AtSetupCall(s, l)
    ensures var t := SetupStep(s, l);
            && SameServer(s, t) && t.live == s.live && t.mem == s.mem && Adopted(s.phase) && Guarded(s.phase)
            && (t.phase == Idle || Adopted(t.phase))
  {
  }

  lemma SyncKeepsLatest(s: Sys, l: Label)
    requires SyncCall(l) && AtSyncCall(s, l)
    ensures var t := SyncStep(s, l);
            && SameServer(s, t) && t.live == s.live && t.mem == s.mem && Adopted(s.phase) && Guarded(s.phase)
            && (t.phase == Idle || Adopted(t.phase))
  {
  }

  lemma GoingOnKeepsLatest(s: Sys, t: Sys)
    requires LatestInv(s) && SameServer(s, t) && t.live == s.live && t.mem == s.mem
    requires Adopted(s.phase) && Guarded(s.phase) && (t.phase == Idle || Adopted(t.phase))
    ensures LatestInv(t)
  {
  }

  lemma RunCallKeepsLatest(s: Sys, l: Label)
    requires LatestInv(s) && RunCall(l) && AtRunCall(s, l)
    ensures LatestInv(RunStep(s, l))
  {
  }

  lemma FetchKeepsLatest(s: Sys, o: Outcome)
    requires LatestInv(s) && s.phase == Idle
    ensures LatestInv(AfterFetch(s, o))
  {
  }

  lemma FinalizersKeepLatest(s: Sys, finalizers: seq<string>, o: Outcome)
    requires LatestInv(s) && NextFinalizers(s) == Some(finalizers) && CopyInv(s)
    ensures LatestInv(AfterWriteFinalizers(s, finalizers, o))
  {
  }

  lemma EndedWriteKeepsLatest(s: Sys, status: Status, o: Outcome)
    requires LatestInv(s) && NextStatus(s) == Some(status)
    requires !Succeeds(s, o) || s.phase.StoringRunStatus? || s.phase.RecordingRun?
    ensures LatestInv(AfterWriteStatus(s, status, o))
  {
  }

  lemma StoreWorkspaceKeepsLatest(s: Sys, status: Status, o: Outcome)
    requires LatestInv(s) && s.phase.StoringWorkspace? && NextStatus(s) == Some(status) && Succeeds(s, o)
    requires Reasons.RunOnRecordIsThere(s)
    ensures LatestInv(AfterWriteStatus(s, status, o))
  {
  }

  lemma AdoptRunKeepsLatest(s: Sys, status: Status, o: Outcome)
    requires LatestInv(s) && s.phase.AdoptingRun? && NextStatus(s) == Some(status) && Succeeds(s, o)
    ensures LatestInv(AfterWriteStatus(s, status, o))
  {
  }

  lemma LaterWriteKeepsLatest(s: Sys, status: Status, o: Outcome)
    requires LatestInv(s) && NextStatus(s) == Some(status) && Succeeds(s, o)
    requires s.phase.StoringOutputs? || s.phase.StoringVersion? || s.phase == ClearingVersion
    ensures LatestInv(AfterWriteStatus(s, status, o))
  {
  }

  lemma WriteKeepsLatest(s: Sys, status: Status, o: Outcome)
    requires LatestInv(s) && NextStatus(s) == Some(status) && Reasons.RunOnRecordIsThere(s)
    ensures LatestInv(AfterWriteStatus(s, status, o))
  {
    if !Succeeds(s, o) || s.phase.StoringRunStatus? || s.phase.RecordingRun? { EndedWriteKeepsLatest(s, status, o); }
    else if s.phase.StoringWorkspace? { StoreWorkspaceKeepsLatest(s, status, o); }
    else if s.phase.AdoptingRun? { AdoptRunKeepsLatest(s, status, o); }
    else { LaterWriteKeepsLatest(s, status, o); }
  }

  lemma EventKeepsLatest(s: Sys, l: Label)
    requires LatestInv(s) && CopyInv(s) && !OperatorCall(l) && At(s, l)
    ensures LatestInv(Step(s, l))
  {
    EventKeepsServer(s, l);
    EventKeepsDoom(s, l);
    StayingKeepsLatest(s, Step(s, l));
  }

  lemma EventKeepsDoom(s: Sys, l: Label)
    requires CopyInv(s) && !OperatorCall(l) && At(s, l)
    ensures Doomed(s) ==> Doomed(Step(s, l))
  {
    if Doomed(s) { DeletionSafety.DoomedStaysInEvent(s, l); }
  }

  lemma StayingKeepsLatest(s: Sys, t: Sys)
    requires LatestInv(s) && SameServer(s, t) && t.mem == s.mem && (t.phase == s.phase || t.phase == Idle)
    requires Doomed(s) ==> Doomed(t)
    ensures LatestInv(t)
  {
  }

  lemma EventKeepsServer(s: Sys, l: Label)
    requires !OperatorCall(l)
    ensures var t := Step(s, l); SameServer(s, t) && t.mem == s.mem && (t.phase == s.phase || t.phase == Idle)
  {
    if l.Drift? {
    } else {
      EventIsQuiet(s, l);
      Reasons.EventLeavesRuns(s, l);
    }
  }

  lemma SetupKeepsLatest(s: Sys, l: Label)
    requires LatestInv(s) && SetupCall(l) && AtSetupCall(s, l) && Reasons.RunOnRecordIsThere(s)
    ensures LatestInv(SetupStep(s, l))
  {
    if l.ReadWorkspace? || l.CreateWorkspace? {
      FindingKeepsLatest(s, l);
    } else {
      OtherSetupKeepsLatest(s, l);
      GoingOnKeepsLatest(s, SetupStep(s, l));
    }
  }

  lemma ObjectCallKeepsLatest(s: Sys, l: Label)
    requires LatestInv(s) && CopyInv(s) && ObjectCall(l) && AtObjectCall(s, l)
    requires Reasons.RunOnRecordIsThere(s) || s.phase == Idle
    ensures LatestInv(ObjectStep(s, l))
  {
    if l.Fetch? { FetchKeepsLatest(s, l.o); }
    else if l.WriteStatus? { WriteKeepsLatest(s, l.written, l.o); }
    else { FinalizersKeepLatest(s, l.finalizers, l.o); }
  }

  lemma StepKeepsLatest(s: Sys, l: Label)
    requires LatestInv(s) && CopyInv(s) && At(s, l) && (Reasons.RunOnRecordIsThere(s) || s.phase == Idle)
    requires l.CreateDestroyRun? ==> s.cloud.workspace.Some?
    ensures LatestInv(Step(s, l))
  {
    if DeletionCall(l) { DeletionKeepsLatest(s, l); }
    else if SetupCall(l) { SetupKeepsLatest(s, l); }
    else if RunCall(l) { RunCallKeepsLatest(s, l); }
    else if ObjectCall(l) { ObjectCallKeepsLatest(s, l); }
    else if SyncCall(l) { SyncKeepsLatest(s, l); GoingOnKeepsLatest(s, SyncStep(s, l)); }
    else { EventKeepsLatest(s, l); }
  }

  /****** Over whole runs ******/

  lemma WorkspaceIsThere(s: Sys, l: Label)
    requires PhaseInv(s) && At(s, l)
    ensures l.CreateDestroyRun? ==> s.cloud.workspace.Some?
  {
  }

  lemma LatestNext(states: seq<Sys>, labels: seq<Label>, k: nat)
    requires IsRun(states, labels) && Init(states[0]) && k < |labels| && LatestInv(states[k])
    ensures LatestInv(states[k + 1])
  {
    InitIsSafe(states[0]);
    RunIsSafe(states, labels, k);
    assert StepAt(states, labels, k);
    Reasons.InvReady(states[k]);
    WorkspaceIsThere(states[k], labels[k]);
    StepKeepsLatest(states[k], labels[k]);
  }

  lemma {:induction false} LatestHolds(states: seq<Sys>, labels: seq<Label>, n: nat)
    requires IsRun(states, labels) && Init(states[0]) && n < |states|
    ensures LatestInv(states[n])
    decreases n
  {
    if n > 0 {
      LatestHolds(states, labels, n - 1);
      LatestNext(states, labels, n - 1);
    }
  }

  /** The calls that act on a workspace for a spec, and do not only set it up or tear it down. */
  predicate Acts(l: Label) { l.Notify? || l.ReadRun? || l.ReadState? || l.PutSecret? || SyncCall(l) || RunCall(l) }

  /** Whatever was lost before: by the time that a call syncs or reads anything or makes a run, the status has the id of
      the server's workspace, a run on record is its latest, and the finalizer is on the object. */
  lemma CallsActOnWhatIsOnRecord(states: seq<Sys>, labels: seq<Label>, n: nat)
    requires IsRun(states, labels) && Init(states[0]) && n < |labels| && Acts(labels[n])
    ensures var s := states[n];
            && s.mem.status.workspace.Some? && s.mem.status.workspace == s.cloud.workspace
            && TracksLatest(s.mem.status, s.cloud) && FINALIZER in s.mem.finalizers
  {
    assert StepAt(states, labels, n);
    ActingIsGuarded(states[n], labels[n]);
    LatestHolds(states, labels, n);
  }

  lemma ActingIsGuarded(s: Sys, l: Label)
    requires At(s, l) && Acts(l)
    ensures Adopted(s.phase) && Guarded(s.phase)
  {
  }

  /** A call that settles does so with the server's latest run on record. */
  lemma SettledCallsTrackTheLatestRun(states: seq<Sys>, labels: seq<Label>, n: nat)
    requires IsRun(states, labels) && Init(states[0]) && n < |labels| && Settles(states[n], states[n + 1])
    ensures var t := states[n + 1]; t.mem.status.run.Some? && t.mem.status.run == CurrentRun(t.cloud)
  {
    assert StepAt(states, labels, n);
    LatestHolds(states, labels, n);
    SettlingTracksLatest(states[n], labels[n]);
  }

  lemma SettlingTracksLatest(s: Sys, l: Label)
    requires LatestInv(s) && Enabled(s, l) && Settles(s, Step(s, l))
    ensures var t := Step(s, l); t.mem.status.run.Some? && t.mem.status.run == CurrentRun(t.cloud)
  {
    OnlyTriggersSettle(s, l);
    SyncKeepsLatest(s, l);
    SameLatest(s, Step(s, l));
  }

  lemma SameLatest(s: Sys, t: Sys)
    requires SameServer(s, t) && t.mem == s.mem
    ensures TracksLatest(s.mem.status, s.cloud) ==> TracksLatest(t.mem.status, t.cloud)
  {
  }
}

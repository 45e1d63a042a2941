/** Every step keeps the invariant, so it holds in all that can be reached. */
module MachineSafety {
  import opened Options
  import opened Outcomes
  import opened Machine
  import opened MachineInvariants
  import opened MachineMoves
  import opened MachineRecords
  import opened MachineWrites

  predicate RunsAreListed(l: Label) { l.CheckExistence? || l.CheckAgain? || l.ListRuns? || l.ForceCancel? }

  lemma StoppingKeeps(s: Sys, l: Label)
    requires Inv(s) && RunsAreListed(l) && AtDeletionCall(s, l)
    ensures Inv(DeletionStep(s, l))
  {
    if l.CheckExistence? { CheckKeeps(s, l.o); }
    else if l.CheckAgain? { SecondCheckKeeps(s, l.o); }
    else if l.ListRuns? { ListRunsKeeps(s, l.o); }
    else if l.ForceCancel? { ForceCancelKeeps(s, l.o); }
  }

  lemma DestroyingKeeps(s: Sys, l: Label)
    requires Inv(s) && DeletionCall(l) && !RunsAreListed(l) && AtDeletionCall(s, l)
    ensures Inv(DeletionStep(s, l))
  {
    if l.ReadCurrentRun? { ReadCurrentRunKeeps(s, l.o); }
    else if l.CreateDestroyRun? { CreateDestroyRunKeeps(s, l.status, l.o); }
    else if l.Poll? { PollKeeps(s, l.o); }
    else if l.DeleteWorkspace? { DeleteWorkspaceKeeps(s, l.o); }
  }

  lemma SetupKeeps(s: Sys, l: Label)
    requires Inv(s) && (l.ReadWorkspace? || l.CreateWorkspace? || l.Notify?) && AtSetupCall(s, l)
    ensures Inv(SetupStep(s, l))
  {
    if l.ReadWorkspace? { ReadWorkspaceKeeps(s, l.o); }
    else if l.CreateWorkspace? { CreateWorkspaceKeeps(s, l.o); }
    else if l.Notify? { NotifyKeeps(s, l.calls, l.ok); }
  }

  lemma PublishingKeeps(s: Sys, l: Label)
    requires Inv(s) && (l.ReadRun? || l.ReadState? || l.PutSecret?) && AtSetupCall(s, l)
    ensures Inv(SetupStep(s, l))
  {
    if l.ReadRun? { ReadRunKeeps(s, l.o); }
    else if l.ReadState? { ReadStateKeeps(s, l.outputs, l.o); }
    else if l.PutSecret? { PutSecretKeeps(s, l.o); }
  }

  lemma SyncKeeps(s: Sys, l: Label)
    requires Inv(s) && SyncCall(l) && AtSyncCall(s, l)
    ensures Inv(SyncStep(s, l))
  {
    if l.PutConfig? { PutConfigKeeps(s, l.o); }
    else if l.SyncVariables? { SyncVariablesKeeps(s, l.shown, l.changes, l.ok); }
    else if l.SyncTriggers? { SyncTriggersKeeps(s, l.inbound, l.edits, l.ok); }
  }

  lemma RunKeeps(s: Sys, l: Label)
    requires Inv(s) && RunCall(l) && AtRunCall(s, l)
    ensures Inv(RunStep(s, l))
  {
    if l.ListVersions? { ListVersionsKeeps(s, l.o); }
    else if l.CreateVersion? { CreateVersionKeeps(s, l.o); }
    else if l.Upload? { UploadKeeps(s, l.o); }
    else if l.ReadVersion? { ReadVersionKeeps(s, l.o); }
    else if l.CreateRun? { CreateRunKeeps(s, l.status, l.o); }
  }

  lemma WriteStatusKeeps(s: Sys, status: Status, o: Outcome)
    requires Inv(s) && NextStatus(s) == Some(status)
    ensures Inv(AfterWriteStatus(s, status, o))
  {
    if !Persists(s, o) {
      UnwrittenKeeps(s, status, o);
    } else if s.phase.StoringVersion? {
      StoreVersionKeeps(s, status, o);
    } else if s.phase.RecordingRun? {
      RecordRunKeeps(s, status, o);
    } else {
      PlainWriteKeeps(s, status, o);
    }
  }

  lemma PlainWriteKeeps(s: Sys, status: Status, o: Outcome)
    requires Inv(s) && NextStatus(s) == Some(status) && Persists(s, o) && !s.phase.StoringVersion? &&
             !s.phase.RecordingRun?
    ensures Inv(AfterWriteStatus(s, status, o))
  {
    if s.phase.StoringWorkspace? { StoreWorkspaceKeeps(s, status, o); }
    else if s.phase.AdoptingRun? { AdoptRunKeeps(s, status, o); }
    else if s.phase.StoringRunStatus? { StoreRunStatusKeeps(s, status, o); }
    else if s.phase.StoringOutputs? { StoreOutputsKeeps(s, status, o); }
    else { ClearVersionKeeps(s, status, o); }
  }

  lemma ObjectKeeps(s: Sys, l: Label)
    requires Inv(s) && ObjectCall(l) && AtObjectCall(s, l)
    ensures Inv(ObjectStep(s, l))
  {
    if l.Fetch? { FetchKeeps(s, l.o); }
    else if l.WriteStatus? { WriteStatusKeeps(s, l.written, l.o); }
    else if l.WriteFinalizers? { WriteFinalizersKeeps(s, l.finalizers, l.o); }
  }

  lemma ServerKeeps(s: Sys, l: Label)
    requires Inv(s) && ServerMove(l) && AtServerMove(s, l)
    ensures Inv(ServerStep(s, l))
  {
    if l.Advance? { AdvanceKeeps(s, l.statuses); }
    else if l.Process? { ProcessKeeps(s, l.version, l.result); }
    else if l.Ingress? { BystanderKeeps(s, AfterIngress(s)); }
    else if l.Change? { BystanderKeeps(s, AfterChange(s, l.state)); }
  }

  /** What the invariant does not speak of may change at any time. */
  lemma BystanderKeeps(s: Sys, t: Sys)
    requires Inv(s) && SameObject(s, t) && SameRecords(s, t) && t.phase == s.phase
    ensures Inv(t)
  {
    CopyFrame(s, t);
    ObjectFrame(s, t);
    RunFrame(s, t);
    VersionFrame(s, t);
  }

  lemma DeletionKeeps(s: Sys, l: Label)
    requires Inv(s) && DeletionCall(l) && At(s, l)
    ensures Inv(Step(s, l))
  {
    if RunsAreListed(l) { StoppingKeeps(s, l); } else { DestroyingKeeps(s, l); }
  }

  lemma CallKeeps(s: Sys, l: Label)
    requires Inv(s) && (SetupCall(l) || SyncCall(l)) && At(s, l)
    ensures Inv(Step(s, l))
  {
    if SyncCall(l) { SyncKeeps(s, l); }
    else if l.ReadRun? || l.ReadState? || l.PutSecret? { PublishingKeeps(s, l); }
    else { SetupKeeps(s, l); }
  }

  lemma LastCallKeeps(s: Sys, l: Label)
    requires Inv(s) && (RunCall(l) || ObjectCall(l)) && At(s, l)
    ensures Inv(Step(s, l))
  {
    if RunCall(l) { RunKeeps(s, l); } else { ObjectKeeps(s, l); }
  }

  lemma EventKeeps(s: Sys, l: Label)
    requires Inv(s) && !OperatorCall(l) && At(s, l)
    ensures Inv(Step(s, l))
  {
    if ServerMove(l) { ServerKeeps(s, l); } else { UserKeeps(s, l); }
  }

  lemma UserKeeps(s: Sys, l: Label)
    requires Inv(s) && (l.Edit? || l.Mark? || l.Drift? || l.Crash?) && AtUserStep(s, l)
    ensures Inv(UserStep(s, l))
  {
    if l.Edit? { EditKeeps(s, l.spec, l.before, l.after); }
    else if l.Mark? { MarkKeeps(s); }
    else if l.Drift? { BystanderKeeps(s, AfterDrift(s, l.variables, l.triggers, l.notifications, l.text, l.data,
        l.sources)); }
    else { CrashKeeps(s); }
  }

  lemma StepKeeps(s: Sys, l: Label)
    requires Inv(s) && At(s, l)
    ensures Inv(Step(s, l))
  {
    if DeletionCall(l) { DeletionKeeps(s, l); }
    else if SetupCall(l) || SyncCall(l) { CallKeeps(s, l); }
    else if RunCall(l) || ObjectCall(l) { LastCallKeeps(s, l); }
    else { EventKeeps(s, l); }
  }
}

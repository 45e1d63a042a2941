/** In calm runs, the writes of the object and the moves of the server never raise the rank either; so every call
    that begins with the server at rest settles or lowers it. */
module CalmWrites {
  import opened Options
  import opened Outcomes
  import opened Machine
  import opened MachineInvariants
  import opened MachineRecords
  import opened Mirroring
  import opened Calm

  lemma StoreRunStatusDescends(s: Sys, r: nat, rest: bool, status: Status)
    requires CalmInv(s) && CallInv(s, r, rest) && s.phase.StoringRunStatus? && NextStatus(s) == Some(status) &&
             PhaseInv(s)
    ensures var t := AfterWriteStatus(s, status, Done); CalmInv(t) && CallInv(t, r, rest)
  {
    CalmWrite(s, status);
    var t := AfterWriteStatus(s, status, Done);
    assert Clean(t) == Clean(s);
  }

  lemma StoreOutputsDescends(s: Sys, r: nat, rest: bool, status: Status)
    requires CalmInv(s) && CallInv(s, r, rest) && s.phase.StoringOutputs? && NextStatus(s) == Some(status)
    ensures var t := AfterWriteStatus(s, status, Done); CalmInv(t) && CallInv(t, r, rest)
  {
    CalmWrite(s, status);
    var t := AfterWriteStatus(s, status, Done);
    assert Clean(t) == Clean(s);
  }

  lemma StoreVersionDescends(s: Sys, r: nat, rest: bool, status: Status)
    requires CalmInv(s) && CallInv(s, r, rest) && s.phase.StoringVersion? && NextStatus(s) == Some(status)
    ensures var t := AfterWriteStatus(s, status, Done); CalmInv(t) && CallInv(t, r, rest)
  {
    CalmWrite(s, status);
  }

  lemma ClearVersionDescends(s: Sys, r: nat, rest: bool, status: Status)
    requires CalmInv(s) && CallInv(s, r, rest) && s.phase == ClearingVersion && NextStatus(s) == Some(status)
    ensures var t := AfterWriteStatus(s, status, Done); CalmInv(t) && CallInv(t, r, rest)
  {
    CalmWrite(s, status);
  }

  /** With the run on record nothing is owed. */
  lemma RecordRunDescends(s: Sys, r: nat, rest: bool, status: Status)
    requires CalmInv(s) && CallInv(s, r, rest) && s.phase.RecordingRun? && NextStatus(s) == Some(status)
    ensures var t := AfterWriteStatus(s, status, Done); CalmInv(t) && CallInv(t, r, rest) && Clean(t) && t.phase == Idle
  {
    CalmWrite(s, status);
    var t := AfterWriteStatus(s, status, Done);
    assert Clean(t);
  }

  lemma AddFinalizerDescends(s: Sys, r: nat, rest: bool, finalizers: seq<string>)
    requires CalmInv(s) && CallInv(s, r, rest) && s.phase == AddingFinalizer && NextFinalizers(s) == Some(finalizers)
    ensures var t := AfterWriteFinalizers(s, finalizers, Done); CalmInv(t) && CallInv(t, r, rest)
  {
    var t := AfterWriteFinalizers(s, finalizers, Done);
    assert Clean(t) == Clean(s);
  }

  /** The server has moved on. */
  predicate Moved(s: Sys, t: Sys) {
    && t.phase == s.phase && t.returned == s.returned && t.mem == s.mem && SameDuties(s, t)
    && Progressed(s.cloud.runs, t.cloud.runs) && |t.cloud.versions| == |s.cloud.versions|
    && (forall v :: 0 <= v < |s.cloud.versions| && s.cloud.versions[v].status == Uploaded ==>
          t.cloud.versions[v].status == Uploaded)
    && (s.cloud.repository ==> t.cloud.repository)
  }

  lemma ServerDescends(s: Sys, t: Sys, r: nat, rest: bool)
    requires CalmInv(s) && CallInv(s, r, rest) && Moved(s, t)
    ensures CalmInv(t) && CallInv(t, r, rest)
  {
    SameRank(s, t);
  }

  lemma MoveIsProgress(s: Sys, l: Label)
    requires ServerMove(l) && AtServerMove(s, l) && RunInv(s)
    ensures Moved(s, ServerStep(s, l))
  {
  }

  lemma MoveIsServerStep(s: Sys, l: Label)
    requires ServerMove(l) && At(s, l)
    ensures AtServerMove(s, l) && Step(s, l) == ServerStep(s, l)
  {
  }

  /****** Every step ******/

  lemma SetupDescends(s: Sys, r: nat, rest: bool, l: Label)
    requires CalmInv(s) && CallInv(s, r, rest) && PhaseInv(s) && RunInv(s)
    requires SetupCall(l) && AtSetupCall(s, l) && CalmStep(l)
    ensures CalmInv(SetupStep(s, l)) && CallInv(SetupStep(s, l), r, rest)
  {
    if l.ReadWorkspace? { ReadWorkspaceDescends(s, r, rest); }
    else if l.CreateWorkspace? { CreateWorkspaceDescends(s, r, rest); }
    else if l.Notify? { NotifyDescends(s, r, rest, l.calls); }
    else if l.ReadRun? { ReadRunDescends(s, r, rest); }
    else if l.ReadState? { ReadStateDescends(s, r, rest, l.outputs); }
    else { PutSecretDescends(s, r, rest); }
  }

  lemma SyncDescends(s: Sys, r: nat, rest: bool, l: Label)
    requires CalmInv(s) && CallInv(s, r, rest) && PhaseInv(s) && MirrorInv(s)
    requires SyncCall(l) && AtSyncCall(s, l) && Allowed(s, l) && CalmStep(l)
    ensures CalmInv(SyncStep(s, l)) && CallInv(SyncStep(s, l), r, rest)
  {
    if l.PutConfig? { PutConfigDescends(s, r, rest); }
    else if l.SyncVariables? { SyncVariablesDescends(s, r, rest, l.shown, l.changes); }
    else { SyncTriggersDescends(s, r, rest, l.inbound, l.edits); }
  }

  lemma RunCallDescends(s: Sys, r: nat, rest: bool, l: Label)
    requires CalmInv(s) && CallInv(s, r, rest) && PhaseInv(s) && ObjectInv(s)
    requires RunCall(l) && AtRunCall(s, l) && CalmStep(l)
    ensures CalmInv(RunStep(s, l)) && CallInv(RunStep(s, l), r, rest)
  {
    if l.ListVersions? { ListVersionsDescends(s, r, rest); }
    else if l.CreateVersion? { CreateVersionDescends(s, r, rest); }
    else if l.Upload? { UploadDescends(s, r, rest); }
    else if l.ReadVersion? { ReadVersionDescends(s, r, rest); }
    else { CreateRunDescends(s, r, rest, l.status); }
  }

  lemma WriteDescends(s: Sys, r: nat, rest: bool, status: Status)
    requires CalmInv(s) && CallInv(s, r, rest) && PhaseInv(s) && RunInv(s) && NextStatus(s) == Some(status)
    ensures CalmInv(AfterWriteStatus(s, status, Done)) && CallInv(AfterWriteStatus(s, status, Done), r, rest)
  {
    if s.phase.StoringWorkspace? { StoreWorkspaceDescends(s, r, rest, status); }
    else if s.phase.AdoptingRun? { AdoptRunDescends(s, r, rest, status); }
    else if s.phase.StoringRunStatus? { StoreRunStatusDescends(s, r, rest, status); }
    else if s.phase.StoringOutputs? { StoreOutputsDescends(s, r, rest, status); }
    else if s.phase.StoringVersion? { StoreVersionDescends(s, r, rest, status); }
    else if s.phase == ClearingVersion { ClearVersionDescends(s, r, rest, status); }
    else { RecordRunDescends(s, r, rest, status); }
  }

  lemma EarlyStepDescends(s: Sys, r: nat, rest: bool, l: Label)
    requires CalmInv(s) && CallInv(s, r, rest) && PhaseInv(s) && RunInv(s) && MirrorInv(s)
    requires Enabled(s, l) && CalmStep(l) && (SetupCall(l) || SyncCall(l))
    ensures CalmInv(Step(s, l)) && CallInv(Step(s, l), r, rest)
  {
    if SetupCall(l) { SetupDescends(s, r, rest, l); } else { SyncDescends(s, r, rest, l); }
  }

  lemma LateStepDescends(s: Sys, r: nat, rest: bool, l: Label)
    requires CalmInv(s) && CallInv(s, r, rest) && PhaseInv(s) && RunInv(s) && ObjectInv(s)
    requires At(s, l) && CalmStep(l) && !SetupCall(l) && !SyncCall(l) && !ServerMove(l) && s.phase != Idle
    ensures CalmInv(Step(s, l)) && CallInv(Step(s, l), r, rest)
  {
    if RunCall(l) { RunCallDescends(s, r, rest, l); }
    else if l.WriteStatus? { WriteDescends(s, r, rest, l.written); }
    else { AddFinalizerDescends(s, r, rest, l.finalizers); }
  }

  lemma MoveDescends(s: Sys, r: nat, rest: bool, l: Label)
    requires CalmInv(s) && CallInv(s, r, rest) && RunInv(s) && At(s, l) && ServerMove(l)
    ensures CalmInv(Step(s, l)) && CallInv(Step(s, l), r, rest)
  {
    MoveIsServerStep(s, l);
    MoveIsProgress(s, l);
    ServerDescends(s, ServerStep(s, l), r, rest);
  }

  /** Within a call. */
  lemma StepDescends(s: Sys, r: nat, rest: bool, l: Label)
    requires CalmInv(s) && CallInv(s, r, rest) && Inv(s) && MirrorInv(s)
    requires Enabled(s, l) && CalmStep(l) && s.phase != Idle
    ensures CalmInv(Step(s, l)) && CallInv(Step(s, l), r, rest)
  {
    if SetupCall(l) || SyncCall(l) { EarlyStepDescends(s, r, rest, l); }
    else if ServerMove(l) { MoveDescends(s, r, rest, l); }
    else { LateStepDescends(s, r, rest, l); }
  }

  lemma OnlyFetchAtIdle(s: Sys, l: Label)
    requires s.phase == Idle && At(s, l) && CalmStep(l) && !ServerMove(l)
    ensures l.Fetch? && Step(s, l) == AfterFetch(s, Done)
  {
  }

  /** Between calls. */
  lemma IdleStepDescends(s: Sys, r: nat, rest: bool, l: Label)
    requires CalmInv(s) && s.phase == Idle && Rank(s) <= r && (rest ==> Resting(s.live.value, s.cloud))
    requires At(s, l) && CalmStep(l) && !ServerMove(l)
    ensures l.Fetch? && CalmInv(Step(s, l)) && CallInv(Step(s, l), r, rest)
  {
    OnlyFetchAtIdle(s, l);
    FetchDescends(s, r, rest);
  }
}

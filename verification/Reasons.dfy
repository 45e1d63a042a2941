/**
 What the operator has a reason for: every write of the status is news, every apply run has its configuration, and a
 destroy run comes only after another run.
 */
module Reasons {
  import opened Options
  import opened Outcomes
  import opened Runs
  import opened Machine
  import opened MachineInvariants
  import opened Mirroring
  import opened Safety

  /****** What has led the call to where it is ******/

  /** The operator's finalizer is on the list, and everything is torn down or given up. */
  predicate Tearing(p: Phase) {
    InDeletion(p) && p != CheckingExistence && p != RemovingFinalizer(NotOurs)
  }

  predicate DeletionWay(s: Sys) {
    && (Tearing(s.phase) ==> FINALIZER in s.mem.finalizers)
    && (s.phase == RemovingFinalizer(NotOurs) ==> FINALIZER !in s.mem.finalizers)
    && (s.phase.CreatingDestroyRun? ==> s.cloud.runs != [])
  }

  predicate Publishing(p: Phase) { p.ReadingState? || p.StoringOutputs? || p.PublishingSecret? }

  predicate SetupWay(s: Sys) {
    var p, st := s.phase, s.mem.status;
    && (p.StoringWorkspace? ==> st.workspace != Some(p.id))
    && (p.AdoptingRun? ==> st.run != Some(p.latest))
    && (p.StoringRunStatus? ==> st.runStatus != p.status)
    && (p.StoringOutputs? ==> st.outputs != p.outputs)
    && (Publishing(p) ==> !IsPending(st.runStatus) && !IsError(st.runStatus))
  }

  predicate ForModule(p: Phase) {
    || p.Templating? || p.CreatingVersion? || p.Uploading? || p.StoringVersion? || p.ReadingVersion?
    || p.ClearingVersion? || (p.CreatingRun? && p.cleared.Some?)
  }

  predicate ForRepository(p: Phase) { p.ListingVersions? || p == CreatingRun(None) }

  predicate RunWay(s: Sys) {
    && (ForModule(s.phase) ==> !s.mem.spec.vcs && s.mem.spec.mod.Some?)
    && (ForRepository(s.phase) ==> s.mem.spec.vcs)
    && (Syncing(s.phase) ==> s.mem.spec.vcs || s.mem.spec.mod.Some?)
    && (s.phase == CreatingRun(None) ==> s.cloud.repository)
    && (s.phase.RecordingRun? ==> s.mem.status.run != Some(s.phase.run))
  }

  predicate WayInv(s: Sys) { DeletionWay(s) && SetupWay(s) && RunWay(s) }

  lemma DeletionKeepsWay(s: Sys, l: Label)
    requires DeletionWay(s) && DeletionCall(l) && AtDeletionCall(s, l)
    ensures WayInv(DeletionStep(s, l))
  {
    DeletionIsQuiet(s, l);
    DeletionStaysDeletion(s, l);
  }

  lemma DeletionStaysDeletion(s: Sys, l: Label)
    requires DeletionWay(s) && DeletionCall(l) && AtDeletionCall(s, l)
    ensures var t := DeletionStep(s, l); DeletionWay(t) && (t.phase == Idle || InDeletion(t.phase))
  {
  }

  lemma SetupDoesNotDelete(s: Sys, l: Label)
    requires SetupCall(l) && AtSetupCall(s, l)
    ensures !InDeletion(SetupStep(s, l).phase)
  {
  }

  lemma FindingKeepsWay(s: Sys, l: Label)
    requires (l.ReadWorkspace? || l.CreateWorkspace?) && AtSetupCall(s, l)
    ensures SetupWay(SetupStep(s, l)) && RunWay(SetupStep(s, l))
  {
  }

  lemma ReadingKeepsWay(s: Sys, l: Label)
    requires SetupWay(s) && (l.ReadRun? || l.ReadState?) && AtSetupCall(s, l)
    ensures SetupWay(SetupStep(s, l)) && RunWay(SetupStep(s, l))
  {
  }

  lemma GoingOnKeepsWay(s: Sys, l: Label)
    requires (l.Notify? || l.PutSecret?) && AtSetupCall(s, l)
    ensures SetupWay(SetupStep(s, l)) && RunWay(SetupStep(s, l))
  {
  }

  lemma SetupKeepsWay(s: Sys, l: Label)
    requires SetupWay(s) && SetupCall(l) && AtSetupCall(s, l)
    ensures WayInv(SetupStep(s, l))
  {
    SetupDoesNotDelete(s, l);
    if l.ReadWorkspace? || l.CreateWorkspace? { FindingKeepsWay(s, l); }
    else if l.ReadRun? || l.ReadState? { ReadingKeepsWay(s, l); }
    else { GoingOnKeepsWay(s, l); }
  }

  lemma SyncKeepsWay(s: Sys, l: Label)
    requires RunWay(s) && SyncCall(l) && AtSyncCall(s, l)
    ensures WayInv(SyncStep(s, l))
  {
    SyncStaysInRun(s, l);
  }

  lemma SyncStaysInRun(s: Sys, l: Label)
    requires RunWay(s) && SyncCall(l) && AtSyncCall(s, l)
    ensures var t := SyncStep(s, l);
            RunWay(t) && (t.phase == Idle || Syncing(t.phase) || (StartingRun(t.phase) && !t.phase.StoringVersion?))
  {
  }

  predicate RunOnRecordIsThere(s: Sys) { s.mem.status.run.Some? ==> s.mem.status.run.value < |s.cloud.runs| }

  lemma RunCallKeepsWay(s: Sys, l: Label)
    requires RunWay(s) && RunCall(l) && AtRunCall(s, l) && RunOnRecordIsThere(s)
    ensures WayInv(RunStep(s, l))
  {
    RunCallStaysInRun(s, l);
  }

  lemma RunCallStaysInRun(s: Sys, l: Label)
    requires RunWay(s) && RunCall(l) && AtRunCall(s, l) && RunOnRecordIsThere(s)
    ensures var t := RunStep(s, l); RunWay(t) && (t.phase == Idle || StartingRun(t.phase))
  {
  }

  lemma FetchKeepsWay(s: Sys, o: Outcome)
    ensures WayInv(AfterFetch(s, o))
  {
  }

  lemma FinalizersKeepWay(s: Sys, finalizers: seq<string>, o: Outcome)
    ensures WayInv(AfterWriteFinalizers(s, finalizers, o))
  {
  }

  lemma WriteKeepsWay(s: Sys, status: Status, o: Outcome)
    requires SetupWay(s) && RunWay(s) && NextStatus(s) == Some(status)
    requires s.phase == ClearingVersion ==> s.mem.status.version.Some?
    ensures WayInv(AfterWriteStatus(s, status, o))
  {
    WriteDoesNotDelete(s, status, o);
    if s.phase.StoringVersion? || s.phase == ClearingVersion {
      VersionWriteKeepsWay(s, status, o);
    } else {
      OtherWriteKeepsWay(s, status, o);
    }
  }

  lemma WriteDoesNotDelete(s: Sys, status: Status, o: Outcome)
    requires NextStatus(s) == Some(status)
    ensures !InDeletion(AfterWriteStatus(s, status, o).phase)
  {
  }

  lemma VersionWriteKeepsWay(s: Sys, status: Status, o: Outcome)
    requires RunWay(s) && NextStatus(s) == Some(status) && (s.phase.StoringVersion? || s.phase == ClearingVersion)
    requires s.phase == ClearingVersion ==> s.mem.status.version.Some?
    ensures var t := AfterWriteStatus(s, status, o); SetupWay(t) && RunWay(t)
  {
  }

  lemma OtherWriteKeepsWay(s: Sys, status: Status, o: Outcome)
    requires SetupWay(s) && NextStatus(s) == Some(status) && !s.phase.StoringVersion? && s.phase != ClearingVersion
    ensures var t := AfterWriteStatus(s, status, o); SetupWay(t) && RunWay(t)
  {
  }

  lemma ObjectCallKeepsWay(s: Sys, l: Label)
    requires WayInv(s) && ObjectCall(l) && AtObjectCall(s, l)
    requires s.phase == ClearingVersion ==> s.mem.status.version.Some?
    ensures WayInv(ObjectStep(s, l))
  {
    if l.Fetch? { FetchKeepsWay(s, l.o); }
    else if l.WriteStatus? { WriteKeepsWay(s, l.written, l.o); }
    else { FinalizersKeepWay(s, l.finalizers, l.o); }
  }

  lemma EventKeepsWay(s: Sys, l: Label)
    requires WayInv(s) && At(s, l) && !OperatorCall(l)
    ensures WayInv(Step(s, l))
  {
    if l.Drift? {
    } else {
      EventIsQuiet(s, l);
      EventLeavesRuns(s, l);
    }
  }

  lemma EventLeavesRuns(s: Sys, l: Label)
    requires !OperatorCall(l)
    ensures var t := if ServerMove(l) then ServerStep(s, l) else UserStep(s, l);
            |t.cloud.runs| == |s.cloud.runs| && (s.cloud.repository ==> t.cloud.repository)
  {
  }

  lemma InvReady(s: Sys)
    requires Inv(s)
    ensures RunOnRecordIsThere(s) || s.phase == Idle
    ensures s.phase == ClearingVersion ==> s.mem.status.version.Some?
  {
  }

  lemma CallKeepsWay(s: Sys, l: Label)
    requires WayInv(s) && At(s, l) && OperatorCall(l) && (RunOnRecordIsThere(s) || s.phase == Idle)
    requires s.phase == ClearingVersion ==> s.mem.status.version.Some?
    ensures WayInv(Step(s, l))
  {
    if DeletionCall(l) { DeletionKeepsWay(s, l); }
    else if SetupCall(l) { SetupKeepsWay(s, l); }
    else if SyncCall(l) { SyncKeepsWay(s, l); }
    else if RunCall(l) { RunCallKeepsWay(s, l); }
    else { ObjectCallKeepsWay(s, l); }
  }

  lemma StepKeepsWay(s: Sys, l: Label)
    requires Inv(s) && WayInv(s) && At(s, l)
    ensures WayInv(Step(s, l))
  {
    InvReady(s);
    if OperatorCall(l) { CallKeepsWay(s, l); } else { EventKeepsWay(s, l); }
  }

  /****** Every run has its configuration ******/

  predicate GivenVersion(c: Cloud, v: nat) { v < |c.versions| && c.versions[v].given }

  /** The configuration of an apply run is a version whose files were sent, or the repository's. */
  predicate IsSupplied(c: Cloud, run: Run) {
    run.kind.Apply? ==> if run.kind.version.Some? then GivenVersion(c, run.kind.version.value) else c.repository
  }

  predicate Supplied(c: Cloud) {
    forall i :: 0 <= i < |c.runs| ==> IsSupplied(c, c.runs[i]) && (c.runs[i].kind.Destroy? ==> i > 0)
  }

  predicate HeldGiven(st: Status, c: Cloud) { st.version.Some? ==> GivenVersion(c, st.version.value) }

  predicate SupplyInv(s: Sys) {
    && Supplied(s.cloud)
    && (s.live.Some? ==> HeldGiven(s.live.value.status, s.cloud))
    && (s.phase != Idle ==> HeldGiven(s.mem.status, s.cloud))
    && (s.phase.StoringVersion? ==> GivenVersion(s.cloud, s.phase.version))
    && (s.phase.CreatingRun? && s.phase.cleared.Some? ==> GivenVersion(s.cloud, s.phase.cleared.value))
  }

  /** Nothing that a run or the status stands on is taken away. */
  predicate Grows(c: Cloud, d: Cloud) {
    && |c.versions| <= |d.versions| && (c.repository ==> d.repository)
    && forall v :: 0 <= v < |c.versions| && c.versions[v].given ==> d.versions[v].given
  }

  predicate SameKinds(c: Cloud, d: Cloud) {
    |c.runs| == |d.runs| && forall i :: 0 <= i < |c.runs| ==> d.runs[i].kind == c.runs[i].kind
  }

  lemma SuppliedFrame(c: Cloud, d: Cloud)
    requires Supplied(c) && Grows(c, d) && SameKinds(c, d)
    ensures Supplied(d)
  {
    forall i | 0 <= i < |d.runs| ensures IsSupplied(d, d.runs[i]) { assert IsSupplied(c, c.runs[i]); }
  }

  lemma SuppliedOneMore(c: Cloud, run: Run)
    requires Supplied(c) && IsSupplied(c, run) && (run.kind.Destroy? ==> c.runs != [])
    ensures Supplied(c.(runs := c.runs + [run]))
  {
    var d := c.(runs := c.runs + [run]);
    forall i | 0 <= i < |d.runs| ensures IsSupplied(d, d.runs[i]) {
      if i < |c.runs| { assert IsSupplied(c, c.runs[i]); }
    }
  }

  predicate SameVersion(s: Sys, t: Sys) {
    && (t.live.Some? ==> s.live.Some? && t.live.value.status.version == s.live.value.status.version)
    && (t.phase != Idle ==> s.phase != Idle && t.mem.status.version == s.mem.status.version)
    && (t.phase.StoringVersion? || t.phase.CreatingRun? ==> t.phase == s.phase || t.phase == CreatingRun(None))
  }

  lemma SupplyFrame(s: Sys, t: Sys)
    requires SupplyInv(s) && Grows(s.cloud, t.cloud) && SameKinds(s.cloud, t.cloud) && SameVersion(s, t)
    ensures SupplyInv(t)
  {
    SuppliedFrame(s.cloud, t.cloud);
  }

  lemma DestroyRunKeepsSupply(s: Sys, status: RunStatus, o: Outcome)
    requires SupplyInv(s) && s.phase.CreatingDestroyRun? && s.cloud.runs != []
    ensures SupplyInv(AfterCreateDestroyRun(s, status, o))
  {
    SuppliedOneMore(s.cloud, Run(Destroy, status, false, false));
  }

  lemma OtherDeletionKeepsSupply(s: Sys, l: Label)
    requires DeletionCall(l) && AtDeletionCall(s, l) && !l.CreateDestroyRun?
    ensures var t := DeletionStep(s, l); Grows(s.cloud, t.cloud) && SameKinds(s.cloud, t.cloud) && SameVersion(s, t)
  {
  }

  lemma SetupKeepsSupply(s: Sys, l: Label)
    requires SetupCall(l) && AtSetupCall(s, l)
    ensures var t := SetupStep(s, l); Grows(s.cloud, t.cloud) && SameKinds(s.cloud, t.cloud) && SameVersion(s, t)
  {
  }

  lemma SyncKeepsSupply(s: Sys, l: Label)
    requires SyncCall(l) && AtSyncCall(s, l)
    ensures var t := SyncStep(s, l); Grows(s.cloud, t.cloud) && SameKinds(s.cloud, t.cloud) && SameVersion(s, t)
  {
  }

  lemma CreateRunKeepsSupply(s: Sys, status: RunStatus, o: Outcome)
    requires SupplyInv(s) && s.phase.CreatingRun? && (s.phase.cleared.None? ==> s.cloud.repository)
    ensures SupplyInv(AfterCreateRun(s, status, o))
  {
    SuppliedOneMore(s.cloud, Run(Apply(s.phase.cleared), status, false, false));
  }

  lemma UploadKeepsSupply(s: Sys, o: Outcome)
    requires SupplyInv(s) && s.phase.Uploading?
    ensures SupplyInv(AfterUpload(s, o))
  {
    var t := AfterUpload(s, o);
    assert Grows(s.cloud, t.cloud) && SameKinds(s.cloud, t.cloud);
    SuppliedFrame(s.cloud, t.cloud);
  }

  lemma OtherRunCallKeepsSupply(s: Sys, l: Label)
    requires RunCall(l) && AtRunCall(s, l) && !l.CreateRun? && !l.Upload?
    ensures var t := RunStep(s, l); Grows(s.cloud, t.cloud) && SameKinds(s.cloud, t.cloud) && SameVersion(s, t)
  {
  }

  lemma FetchKeepsSupply(s: Sys, o: Outcome)
    requires SupplyInv(s)
    ensures SupplyInv(AfterFetch(s, o))
  {
  }

  lemma FinalizersKeepSupply(s: Sys, finalizers: seq<string>, o: Outcome)
    requires SupplyInv(s) && s.phase != Idle
    ensures SupplyInv(AfterWriteFinalizers(s, finalizers, o))
  {
  }

  lemma WriteKeepsSupply(s: Sys, status: Status, o: Outcome)
    requires SupplyInv(s) && NextStatus(s) == Some(status)
    ensures SupplyInv(AfterWriteStatus(s, status, o))
  {
    var t := AfterWriteStatus(s, status, o);
    NoteGrows(s, Persists(s, o));
    WrittenCloud(s, status, o);
    SuppliedFrame(s.cloud, t.cloud);
  }

  lemma NoteGrows(s: Sys, persisted: bool)
    ensures Grows(s.cloud, Note(s, persisted).cloud) && SameKinds(s.cloud, Note(s, persisted).cloud)
  {
  }

  lemma WrittenCloud(s: Sys, status: Status, o: Outcome)
    ensures AfterWriteStatus(s, status, o).cloud == Note(s, Persists(s, o)).cloud
  {
  }

  lemma EventKeepsSupply(s: Sys, l: Label)
    requires !OperatorCall(l) && At(s, l)
    ensures var t := Step(s, l); Grows(s.cloud, t.cloud) && SameKinds(s.cloud, t.cloud) && SameVersion(s, t)
  {
  }

  lemma DeletionKeepsSupply(s: Sys, l: Label)
    requires SupplyInv(s) && DeletionWay(s) && DeletionCall(l) && AtDeletionCall(s, l)
    ensures SupplyInv(DeletionStep(s, l))
  {
    if l.CreateDestroyRun? {
      DestroyRunKeepsSupply(s, l.status, l.o);
    } else {
      OtherDeletionKeepsSupply(s, l);
      SupplyFrame(s, DeletionStep(s, l));
    }
  }

  lemma RunCallKeepsSupply(s: Sys, l: Label)
    requires SupplyInv(s) && RunWay(s) && RunCall(l) && AtRunCall(s, l)
    ensures SupplyInv(RunStep(s, l))
  {
    if l.CreateRun? {
      CreateRunKeepsSupply(s, l.status, l.o);
    } else if l.Upload? {
      UploadKeepsSupply(s, l.o);
    } else {
      OtherRunCallKeepsSupply(s, l);
      SupplyFrame(s, RunStep(s, l));
    }
  }

  lemma ObjectCallKeepsSupply(s: Sys, l: Label)
    requires SupplyInv(s) && ObjectCall(l) && AtObjectCall(s, l)
    ensures SupplyInv(ObjectStep(s, l))
  {
    if l.Fetch? { FetchKeepsSupply(s, l.o); }
    else if l.WriteStatus? { WriteKeepsSupply(s, l.written, l.o); }
    else { FinalizersKeepSupply(s, l.finalizers, l.o); }
  }

  lemma StepKeepsSupply(s: Sys, l: Label)
    requires SupplyInv(s) && WayInv(s) && At(s, l)
    ensures SupplyInv(Step(s, l))
  {
    if DeletionCall(l) { DeletionKeepsSupply(s, l); }
    else if RunCall(l) { RunCallKeepsSupply(s, l); }
    else if ObjectCall(l) { ObjectCallKeepsSupply(s, l); }
    else { OthersKeepSupply(s, l); }
  }

  lemma OthersKeepSupply(s: Sys, l: Label)
    requires SupplyInv(s) && At(s, l) && (SetupCall(l) || SyncCall(l) || !OperatorCall(l))
    ensures SupplyInv(Step(s, l))
  {
    if SetupCall(l) { SetupKeepsSupply(s, l); }
    else if SyncCall(l) { SyncKeepsSupply(s, l); }
    else { EventKeepsSupply(s, l); }
    SupplyFrame(s, Step(s, l));
  }

  /****** Over whole runs ******/

  predicate ReasonInv(s: Sys) { WayInv(s) && SupplyInv(s) }

  lemma InitHasReasons(s: Sys)
    requires Init(s)
    ensures ReasonInv(s)
  {
  }

  lemma ReasonsNext(states: seq<Sys>, labels: seq<Label>, k: nat)
    requires IsRun(states, labels) && Init(states[0]) && k < |labels| && ReasonInv(states[k])
    ensures ReasonInv(states[k + 1])
  {
    InitIsSafe(states[0]);
    RunIsSafe(states, labels, k);
    assert StepAt(states, labels, k);
    StepKeepsWay(states[k], labels[k]);
    StepKeepsSupply(states[k], labels[k]);
  }

  lemma {:induction false} ReasonsHold(states: seq<Sys>, labels: seq<Label>, n: nat)
    requires IsRun(states, labels) && Init(states[0]) && n < |states|
    ensures ReasonInv(states[n])
    decreases n
  {
    if n == 0 {
      InitHasReasons(states[0]);
    } else {
      ReasonsHold(states, labels, n - 1);
      ReasonsNext(states, labels, n - 1);
    }
  }

  /** No apply run is ever without its configuration: it is made from a version whose files were sent, or from a
      repository that has delivered one; and a destroy run is never the first. */
  lemma EveryRunIsSupplied(states: seq<Sys>, labels: seq<Label>, n: nat)
    requires IsRun(states, labels) && Init(states[0]) && n < |states|
    ensures Supplied(states[n].cloud)
  {
    ReasonsHold(states, labels, n);
  }

  /** The status says something new: another workspace, without the outputs of the old one; or other outputs; or a
      version that is now held, or no longer; or another run or status of a run.  The rest stays. */
  predicate IsNews(before: Status, after: Status) {
    || (after.workspace != before.workspace && after == before.(workspace := after.workspace, outputs := []))
    || (after.outputs != before.outputs && after == before.(outputs := after.outputs))
    || (before.version.None? != after.version.None? && after == before.(version := after.version))
    || ((after.run != before.run || after.runStatus != before.runStatus) &&
        after == before.(run := after.run, runStatus := after.runStatus))
  }

  lemma NextIsNews(s: Sys, status: Status)
    requires WayInv(s) && PhaseInv(s) && NextStatus(s) == Some(status)
    ensures IsNews(s.mem.status, status)
  {
  }

  /** Every write of the status is news. */
  lemma WritesAreNews(states: seq<Sys>, labels: seq<Label>, n: nat)
    requires IsRun(states, labels) && Init(states[0]) && n < |labels| && labels[n].WriteStatus?
    ensures IsNews(states[n].mem.status, labels[n].written)
  {
    ReasonedStep(states, labels, n);
    NextIsNews(states[n], labels[n].written);
  }

  lemma ReasonedStep(states: seq<Sys>, labels: seq<Label>, n: nat)
    requires IsRun(states, labels) && Init(states[0]) && n < |labels|
    ensures WayInv(states[n]) && PhaseInv(states[n]) && At(states[n], labels[n])
  {
    assert StepAt(states, labels, n);
    ReasonsHold(states, labels, n);
    InitIsSafe(states[0]);
    RunIsSafe(states, labels, n);
  }

  /** What a copy of the object must say for a call to be made. */
  predicate IsCalledFor(mem: Object, l: Label) {
    if DeletionCall(l) then l.CheckExistence? || FINALIZER in mem.finalizers
    else if l.ReadRun? then IsPending(mem.status.runStatus)
    else if l.ReadState? || l.PutSecret? then !IsPending(mem.status.runStatus) && !IsError(mem.status.runStatus)
    else if l.PutConfig? || l.CreateVersion? || l.Upload? || l.ReadVersion? then !mem.spec.vcs && mem.spec.mod.Some?
    else if l.ListVersions? then mem.spec.vcs
    else true
  }

  lemma WayCallsFor(s: Sys, l: Label)
    requires WayInv(s) && PhaseInv(s) && At(s, l)
    ensures IsCalledFor(s.mem, l)
  {
  }

  /** Nothing is torn down unless the operator's finalizer is on the list; runs are read while they are taken to be
      under way, outputs only when none is and none failed; templates and versions are for modules, repositories for
      the rest. */
  lemma CallsAreCalledFor(states: seq<Sys>, labels: seq<Label>, n: nat)
    requires IsRun(states, labels) && Init(states[0]) && n < |labels|
    ensures IsCalledFor(states[n].mem, labels[n])
  {
    ReasonedStep(states, labels, n);
    WayCallsFor(states[n], labels[n]);
  }
}

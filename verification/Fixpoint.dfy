/**
 The fixpoint: in a calm run, once nothing is owed and every run has ended, the next call brings the last things
 into step; from then on every call settles and writes nothing.
 */
module Fixpoint {
  import opened Options
  import opened Outcomes
  import opened Runs
  import opened Machine
  import opened MachineInvariants
  import opened Mirroring
  import opened Calm
  import Notifications
  import Outputs
  import RunTriggers
  import Variables

  /** The outputs of the object are those of the state, and the Secret holds them; an errored run leaves both alone. */
  predicate OutputsInStep(obj: Object, state: map<string, string>, secret: Option<map<string, string>>) {
    IsError(obj.status.runStatus) ||
    (Outputs.Canonical(obj.status.outputs, state) && secret == Some(Outputs.OutputsToMap(obj.status.outputs)))
  }

  predicate Adopted(p: Phase) { p.AddingFinalizer? || p.Notifying? || Notified(p) }

  predicate Stored(p: Phase) { p.AdoptingRun? || Adopted(p) }

  /** What a call has brought into step when nothing is owed. */
  predicate Settling(s: Sys) {
    && Ended(s.cloud.runs) && s.cloud.workspace.Some? && s.phase != CreatingWorkspace
    && (s.phase.StoringWorkspace? ==> s.cloud.workspace == Some(s.phase.id) && CurrentRun(s.cloud) == s.phase.current)
    && (Stored(s.phase) ==> Present(s))
    && (Adopted(s.phase) ==> CurrentRun(s.cloud) == s.mem.status.run)
    && (s.phase.Notifying? || Notified(s.phase) ==> FINALIZER in s.mem.finalizers)
    && (Notified(s.phase) ==> Notifications.Mirrors(s.mem.spec.notifications, s.cloud.held.notifications))
    && (s.phase.StoringOutputs? ==> Outputs.Canonical(s.phase.outputs, s.cloud.state))
    && (s.phase.PublishingSecret? ==> Outputs.Canonical(s.mem.status.outputs, s.cloud.state))
    && (Syncing(s.phase) ==> OutputsInStep(s.mem, s.cloud.state, s.cluster.secret))
  }

  /** Nothing is left to do. */
  predicate Fixed(s: Sys)
    requires s.live.Some?
  {
    var obj := s.live.value;
    && Clean(s) && !IsPending(obj.status.runStatus) && Ended(s.cloud.runs)
    && obj.status.workspace.Some? && s.cloud.workspace == obj.status.workspace
    && CurrentRun(s.cloud) == obj.status.run && FINALIZER in obj.finalizers
    && Notifications.Mirrors(obj.spec.notifications, s.cloud.held.notifications)
    && OutputsInStep(obj, s.cloud.state, s.cluster.secret)
  }

  /****** The call that brings the last things into step ******/

  predicate Nearly(s: Sys) {
    CalmInv(s) && CallInv(s, 0, false) && Settling(s) && Notifications.DistinctNames(s.live.value.spec.notifications)
  }

  /** The facts that the early calls need of the copy. */
  predicate Tracking(s: Sys) {
    && s.mem.status.run.Some? && s.mem.status.run.value < |s.cloud.runs|
    && !IsPending(s.mem.status.runStatus)
  }

  lemma NearlyTracks(s: Sys)
    requires Nearly(s) && ObjectInv(s) && s.phase != Idle
    ensures Tracking(s) && !StartingRun(s.phase) && s.live == Some(s.mem) && s.mem.status.version.None?
    ensures s.mem.spec.vcs || s.mem.spec.mod.Some?
    ensures s.phase.SyncingVariables? || s.phase.SyncingTriggers? ==> !s.phase.updated
  {
  }

  lemma ReadWorkspaceSettles(s: Sys)
    requires Settling(s) && Tracking(s) && s.phase == ReadingWorkspace
    ensures var t := AfterReadWorkspace(s, Done); Settling(t) && t.phase != Idle
  {
  }

  lemma NotifySettles(s: Sys, calls: seq<Notifications.Call>)
    requires Settling(s) && Tracking(s) && s.phase == Notifying && (s.mem.spec.vcs || s.mem.spec.mod.Some?)
    requires Notifications.Mirrors(s.mem.spec.notifications, Notifications.ApplyAll(s.cloud.held.notifications, calls))
    ensures var t := AfterNotify(s, calls, true); Settling(t) && t.phase != Idle
  {
  }

  lemma ReadStateSettles(s: Sys, outputs: seq<Outputs.OutputStatus>)
    requires Settling(s) && Tracking(s) && s.phase == ReadingState && Outputs.Canonical(outputs, s.cloud.state)
    ensures var t := AfterReadState(s, outputs, Done); Settling(t) && t.phase != Idle
  {
  }

  lemma PutSecretSettles(s: Sys)
    requires Settling(s) && Tracking(s) && s.phase == PublishingSecret && (s.mem.spec.vcs || s.mem.spec.mod.Some?)
    ensures var t := AfterPutSecret(s, Done); Settling(t) && t.phase != Idle
  {
  }

  lemma NoReadingRun(s: Sys)
    requires PhaseInv(s) && Tracking(s)
    ensures s.phase != ReadingRun && !s.phase.StoringRunStatus?
  {
  }

  lemma SetupSettles(s: Sys, l: Label)
    requires Nearly(s) && ObjectInv(s) && PhaseInv(s) && MirrorInv(s)
    requires SetupCall(l) && AtSetupCall(s, l) && Allowed(s, l) && CalmStep(l)
    ensures Settling(SetupStep(s, l)) && SetupStep(s, l).phase != Idle
  {
    NearlyTracks(s);
    NoReadingRun(s);
    if l.Notify? {
      NotificationsConverge(s.mem.spec.notifications, l.listed, l.relisted, s.cloud.held.notifications);
      NotifySettles(s, l.calls);
    }
    else if l.ReadWorkspace? { ReadWorkspaceSettles(s); }
    else if l.ReadState? { ReadStateSettles(s, l.outputs); }
    else if l.PutSecret? { PutSecretSettles(s); }
  }

  /** The syncs find nothing to change, and the last of them settles. */
  lemma PutConfigSettles(s: Sys)
    requires Settling(s) && Tracking(s) && s.phase == Templating
    ensures var t := AfterPutConfig(s, Done); Settling(t) && t.phase != Idle
  {
  }

  lemma SyncVariablesSettles(s: Sys, shown: seq<Variables.Listed>, changes: seq<Variables.Call>)
    requires Settling(s) && s.phase.SyncingVariables? && Wanted(s).Some?
    ensures var t := AfterSyncVariables(s, shown, changes, true); Settling(t) && t.phase != Idle
  {
  }

  lemma SyncTriggersFixes(s: Sys, l: Label)
    requires Nearly(s) && ObjectInv(s) && PhaseInv(s) && MirrorInv(s)
    requires s.phase.SyncingTriggers? && l.SyncTriggers? && Allowed(s, l) && l.ok
    ensures var t := AfterSyncTriggers(s, l.inbound, l.edits, true);
            t.phase == Idle && t.returned == Settled && t.live.Some? && Fixed(t)
  {
    NearlyTracks(s);
    SyncTriggersDescends(s, 0, false, l.inbound, l.edits);
    var t := AfterSyncTriggers(s, l.inbound, l.edits, true);
    SettlingFixes(s, t);
  }

  lemma SettlingFixes(s: Sys, t: Sys)
    requires Settling(s) && s.phase.SyncingTriggers? && s.live == Some(s.mem) && PhaseInv(s)
    requires t.live == s.live && t.mem == s.mem && t.cluster == s.cluster
    requires t.cloud == s.cloud.(held := t.cloud.held) && t.cloud.held.notifications == s.cloud.held.notifications
    requires Clean(t)
    ensures Fixed(t)
  {
  }

  lemma StoreWorkspaceSettles(s: Sys, status: Status)
    requires Settling(s) && Tracking(s) && s.phase.StoringWorkspace? && NextStatus(s) == Some(status) && CalmInv(s)
    ensures var t := AfterWriteStatus(s, status, Done); Settling(t) && t.phase != Idle
  {
    CalmWrite(s, status);
  }

  lemma AdoptRunSettles(s: Sys, status: Status)
    requires Settling(s) && s.phase.AdoptingRun? && NextStatus(s) == Some(status) && CalmInv(s) && PhaseInv(s)
    ensures var t := AfterWriteStatus(s, status, Done); Settling(t) && t.phase != Idle
  {
    CalmWrite(s, status);
  }

  lemma StoreOutputsSettles(s: Sys, status: Status)
    requires Settling(s) && s.phase.StoringOutputs? && NextStatus(s) == Some(status) && CalmInv(s)
    ensures var t := AfterWriteStatus(s, status, Done); Settling(t) && t.phase != Idle
  {
    CalmWrite(s, status);
  }

  lemma AddFinalizerSettles(s: Sys, finalizers: seq<string>)
    requires Settling(s) && Tracking(s) && s.phase == AddingFinalizer && NextFinalizers(s) == Some(finalizers) &&
             CalmInv(s)
    ensures var t := AfterWriteFinalizers(s, finalizers, Done); Settling(t) && t.phase != Idle
  {
  }

  lemma MoveSettles(s: Sys, l: Label)
    requires Settling(s) && ServerMove(l) && AtServerMove(s, l)
    ensures var t := ServerStep(s, l); Settling(t) && t.phase == s.phase
    ensures var t := ServerStep(s, l);
            t.cloud.state == s.cloud.state && t.cloud.held == s.cloud.held && t.cloud.workspace == s.cloud.workspace
            && t.live == s.live && t.mem == s.mem && t.cluster == s.cluster && |t.cloud.runs| == |s.cloud.runs|
            && t.returned == s.returned && Ended(t.cloud.runs)
  {
  }

  lemma WriteSettles(s: Sys, l: Label)
    requires Settling(s) && Tracking(s) && CalmInv(s) && PhaseInv(s) && CalmStep(l) && s.phase != Idle
    requires ObjectCall(l) && AtObjectCall(s, l) && !StartingRun(s.phase) && !s.phase.StoringRunStatus?
    ensures Settling(ObjectStep(s, l)) && ObjectStep(s, l).phase != Idle
  {
    if s.phase.StoringWorkspace? { StoreWorkspaceSettles(s, l.written); }
    else if s.phase.AdoptingRun? { AdoptRunSettles(s, l.written); }
    else if s.phase.StoringOutputs? { StoreOutputsSettles(s, l.written); }
    else { AddFinalizerSettles(s, l.finalizers); }
  }

  lemma FetchSettles(s: Sys)
    requires Settling(s) && CalmInv(s) && s.phase == Idle
    ensures Settling(AfterFetch(s, Done)) && AfterFetch(s, Done).phase != Idle
  {
  }

  lemma ObjectCallSettles(s: Sys, l: Label)
    requires Nearly(s) && ObjectInv(s) && PhaseInv(s) && ObjectCall(l) && AtObjectCall(s, l) && CalmStep(l)
    ensures Settling(ObjectStep(s, l)) && ObjectStep(s, l).phase != Idle
  {
    if s.phase == Idle {
      FetchSettles(s);
    } else {
      NearlyTracks(s);
      NoReadingRun(s);
      WriteSettles(s, l);
    }
  }

  lemma SyncSettles(s: Sys, l: Label)
    requires Nearly(s) && ObjectInv(s) && PhaseInv(s) && MirrorInv(s)
    requires SyncCall(l) && AtSyncCall(s, l) && Allowed(s, l) && CalmStep(l)
    ensures var t := SyncStep(s, l);
            if t.phase == Idle then t.returned == Settled && t.live.Some? && Fixed(t) else Settling(t)
  {
    NearlyTracks(s);
    if l.PutConfig? { PutConfigSettles(s); }
    else if l.SyncVariables? { SyncVariablesSettles(s, l.shown, l.changes); }
    else { SyncTriggersFixes(s, l); }
  }

  lemma NotStartingRun(s: Sys, l: Label)
    requires CalmInv(s) && CallInv(s, 0, false) && RunCall(l)
    ensures !AtRunCall(s, l)
  {
  }

  lemma NotDeleting(s: Sys, l: Label)
    requires CalmInv(s) && DeletionCall(l)
    ensures !AtDeletionCall(s, l)
  {
  }

  lemma NoRunCall(s: Sys, l: Label)
    requires Nearly(s) && (RunCall(l) || DeletionCall(l))
    ensures !At(s, l)
  {
    if RunCall(l) { NotStartingRun(s, l); } else { NotDeleting(s, l); }
  }

  /** A step of a call that has nothing to run for: the call goes on settling, or ends at the fixpoint. */
  lemma StepSettles(s: Sys, l: Label)
    requires Nearly(s) && ObjectInv(s) && PhaseInv(s) && MirrorInv(s) && Enabled(s, l) && CalmStep(l)
    ensures var t := Step(s, l);
            if s.phase != Idle && t.phase == Idle then t.returned == Settled && t.live.Some? && Fixed(t)
            else Settling(t)
  {
    if SetupCall(l) || SyncCall(l) { CallSettles(s, l); } else { OtherStepSettles(s, l); }
  }

  lemma CallSettles(s: Sys, l: Label)
    requires Nearly(s) && ObjectInv(s) && PhaseInv(s) && MirrorInv(s) && Enabled(s, l) && CalmStep(l) &&
             (SetupCall(l) || SyncCall(l))
    ensures var t := Step(s, l);
            if s.phase != Idle && t.phase == Idle then t.returned == Settled && t.live.Some? && Fixed(t)
            else Settling(t)
  {
    if SetupCall(l) { SetupSettles(s, l); } else { SyncSettles(s, l); }
  }

  lemma OtherStepSettles(s: Sys, l: Label)
    requires Nearly(s) && ObjectInv(s) && PhaseInv(s) && At(s, l) && CalmStep(l) && !SetupCall(l) && !SyncCall(l)
    ensures var t := Step(s, l); Settling(t) && (s.phase != Idle ==> t.phase != Idle)
  {
    if ServerMove(l) { MoveSettles(s, l); }
    else if ObjectCall(l) { ObjectCallSettles(s, l); }
    else { NoRunCall(s, l); }
  }

  /****** At the fixpoint ******/

  /** Nothing in the cluster was written, and nothing at the server. */
  predicate Untouched(s: Sys, t: Sys) {
    && t.live == s.live && t.cluster == s.cluster && t.cloud.held == s.cloud.held && t.cloud.state == s.cloud.state
    && t.cloud.workspace == s.cloud.workspace && |t.cloud.runs| == |s.cloud.runs| &&
       |t.cloud.versions| == |s.cloud.versions|
  }

  predicate QuietPhase(p: Phase) {
    p == Idle || p == ReadingWorkspace || p == Notifying || p == ReadingState || p == PublishingSecret || Syncing(p)
  }

  /** The call, if there is one, is at a point where it only looks. */
  predicate Looking(s: Sys) {
    && QuietPhase(s.phase) && (s.phase != Idle ==> s.live == Some(s.mem))
    && (s.phase == ReadingState || s.phase == PublishingSecret ==> !IsError(s.mem.status.runStatus))
  }

  predicate Still(s: Sys) { s.live.Some? && Fixed(s) && Looking(s) }

  /** The step writes nothing, and if it ends a call, it settles. */
  predicate StillStep(s: Sys, t: Sys) {
    Untouched(s, t) && Still(t) && (s.phase != Idle && t.phase == Idle ==> t.returned == Settled)
  }

  lemma FixedStays(s: Sys, t: Sys)
    requires s.live.Some? && Fixed(s) && Untouched(s, t) && Ended(t.cloud.runs)
    ensures Fixed(t)
  {
  }

  lemma ReadWorkspaceIsStill(s: Sys)
    requires Still(s) && s.phase == ReadingWorkspace
    ensures StillStep(s, AfterReadWorkspace(s, Done))
  {
  }

  lemma NotifyIsStill(s: Sys, l: Label)
    requires Still(s) && s.phase == Notifying && l.Notify? && l.ok && Allowed(s, l) &&
             (s.mem.spec.vcs || s.mem.spec.mod.Some?)
    ensures StillStep(s, AfterNotify(s, l.calls, l.ok))
  {
    Notifications.NoCallsWhenMirrored(s.mem.spec.notifications, l.listed, l.relisted, s.cloud.held.notifications);
  }

  lemma ReadStateIsStill(s: Sys, l: Label)
    requires Still(s) && s.phase == ReadingState && l.ReadState? && l.o.Done? && Allowed(s, l)
    ensures StillStep(s, AfterReadState(s, l.outputs, Done))
  {
    Outputs.CanonicalIsUnique(l.outputs, s.mem.status.outputs, s.cloud.state);
  }

  lemma PutSecretIsStill(s: Sys)
    requires Still(s) && s.phase == PublishingSecret && (s.mem.spec.vcs || s.mem.spec.mod.Some?)
    ensures StillStep(s, AfterPutSecret(s, Done))
  {
  }

  lemma PutConfigIsStill(s: Sys)
    requires Still(s) && s.phase == Templating && !s.mem.spec.vcs
    ensures StillStep(s, AfterPutConfig(s, Done))
  {
  }

  lemma SyncVariablesIsStill(s: Sys, l: Label)
    requires Still(s) && s.phase.SyncingVariables? && l.SyncVariables? && l.ok && Allowed(s, l) &&
             Runnable(s.mem, s.cluster)
    ensures StillStep(s, AfterSyncVariables(s, l.shown, l.changes, l.ok))
  {
    MirroredNeedsNothing(s, l.shown, l.changes);
  }

  lemma SyncTriggersIsStill(s: Sys, l: Label)
    requires Still(s) && s.phase == SyncingTriggers(false) && l.SyncTriggers? && l.ok && Allowed(s, l)
    requires RunTriggers.ValidRemote(s.cloud.held.triggers)
    ensures StillStep(s, AfterSyncTriggers(s, l.inbound, l.edits, l.ok))
  {
    RunTriggers.NoCallsWhenMirrored(s.mem.spec.runTriggers, l.inbound, s.cloud.held.triggers);
  }

  lemma SetupIsStill(s: Sys, l: Label)
    requires Still(s) && CalmInv(s) && SetupCall(l) && AtSetupCall(s, l) && Allowed(s, l) && CalmStep(l)
    ensures StillStep(s, SetupStep(s, l))
  {
    if l.ReadWorkspace? { ReadWorkspaceIsStill(s); }
    else if l.Notify? { NotifyIsStill(s, l); }
    else if l.ReadState? { ReadStateIsStill(s, l); }
    else if l.PutSecret? { PutSecretIsStill(s); }
  }

  lemma SyncIsStill(s: Sys, l: Label)
    requires Still(s) && CalmInv(s) && CallInv(s, 0, false) && RunTriggers.ValidRemote(s.cloud.held.triggers)
    requires SyncCall(l) && AtSyncCall(s, l) && Allowed(s, l) && CalmStep(l)
    ensures StillStep(s, SyncStep(s, l))
  {
    if l.PutConfig? { PutConfigIsStill(s); }
    else if l.SyncVariables? { SyncVariablesIsStill(s, l); }
    else { SyncTriggersIsStill(s, l); }
  }

  lemma CallIsStill(s: Sys, l: Label)
    requires Still(s) && CalmInv(s) && CallInv(s, 0, false) && RunTriggers.ValidRemote(s.cloud.held.triggers)
    requires Enabled(s, l) && CalmStep(l) && (SetupCall(l) || SyncCall(l))
    ensures StillStep(s, Step(s, l))
  {
    if SetupCall(l) { SetupIsStill(s, l); } else { SyncIsStill(s, l); }
  }

  lemma FetchIsStill(s: Sys)
    requires Still(s) && CalmInv(s) && s.phase == Idle
    ensures StillStep(s, AfterFetch(s, Done))
  {
  }

  lemma MoveIsStill(s: Sys, l: Label)
    requires Still(s) && ServerMove(l) && AtServerMove(s, l)
    ensures StillStep(s, ServerStep(s, l))
  {
  }

  lemma OnlyFetchOrMove(s: Sys, l: Label)
    requires QuietPhase(s.phase) && At(s, l) && CalmStep(l) && !SetupCall(l) && !SyncCall(l) && !ServerMove(l)
    ensures s.phase == Idle && Step(s, l) == AfterFetch(s, Done)
  {
  }

  lemma OtherStepIsStill(s: Sys, l: Label)
    requires Still(s) && CalmInv(s) && At(s, l) && CalmStep(l) && !SetupCall(l) && !SyncCall(l)
    ensures StillStep(s, Step(s, l))
  {
    if ServerMove(l) {
      MoveIsStill(s, l);
    } else {
      OnlyFetchOrMove(s, l);
      FetchIsStill(s);
    }
  }
}

/**
 Calm runs: no call fails, nobody edits the object or what the operator keeps in step; the server moves on
 as it likes.  `Rank` measures how much the operator still has to do.
 */
module Calm {
  import opened Options
  import opened Outcomes
  import opened Runs
  import opened Workspace
  import opened Machine
  import opened MachineInvariants
  import opened Mirroring
  import Notifications
  import Outputs
  import RunTriggers
  import Variables

  /** The step is a move of the server, or a call of the operator that succeeds. */
  predicate CalmStep(l: Label) {
    if l.Notify? || l.SyncVariables? || l.SyncTriggers? then l.ok
    else if OperatorCall(l) then l.o.Done?
    else ServerMove(l)
  }

  /** Template, variables and triggers are as the spec has them. */
  predicate SpecMirrored(spec: Spec, cluster: Cluster, held: Collections) {
    && (!spec.vcs ==> cluster.config == TextOf(spec, cluster))
    && WantedBy(spec, cluster).Some?
    && Variables.Mirrors(WantedBy(spec, cluster).value, held.variables)
    && RunTriggers.Mirrors(spec.runTriggers, held.triggers)
  }

  /** No run is owed. */
  predicate Clean(s: Sys)
    requires s.live.Some?
  {
    var st := s.live.value.status;
    st.run.Some? && st.version.None? && SpecMirrored(s.live.value.spec, s.cluster, s.cloud.held)
  }

  /** What is owed: nothing, a run of the version that the status holds, or a run from the start. */
  function Owed(s: Sys): nat
    requires s.live.Some?
  {
    if Clean(s) then 0 else if s.live.value.status.version.Some? then 1 else 2
  }

  /** What is owed comes first, then whether a run is taken to be under way. */
  function Rank(s: Sys): nat
    requires s.live.Some?
  {
    2 * Owed(s) + if IsPending(s.live.value.status.runStatus) then 1 else 0
  }

  /****** What holds in calm runs ******/

  /** The spec can be run, and a VCS workspace holds no configuration version. */
  predicate Runnable(obj: Object, cluster: Cluster) {
    && (obj.spec.vcs || obj.spec.mod.Some?)
    && (obj.spec.vcs ==> obj.status.version.None?)
    && (WantedBy(obj.spec, cluster).Some? ==> Variables.DistinctSettings(WantedBy(obj.spec, cluster).value))
  }

  predicate ForModule(p: Phase) {
    p.Templating? || p.CreatingVersion? || p.Uploading? || p.StoringVersion? || p.ReadingVersion? || p.ClearingVersion?
  }

  predicate CalmInv(s: Sys) {
    && s.live.Some? && !s.live.value.deleting && !InDeletion(s.phase)
    && Runnable(s.live.value, s.cluster)
    && (s.phase != Idle ==> s.live == Some(s.mem))
    && (StartingRun(s.phase) ==> SpecMirrored(s.mem.spec, s.cluster, s.cloud.held))
    && (s.phase.ListingVersions? ==> s.mem.spec.vcs)
    && (ForModule(s.phase) ==> !s.mem.spec.vcs)
    && (s.phase.CreatingRun? || s.phase.RecordingRun? ==> s.mem.status.version.None?)
  }

  /** The server is done with what this object waits for. */
  predicate Resting(obj: Object, c: Cloud) {
    && (IsPending(obj.status.runStatus) && obj.status.run.Some? ==>
          obj.status.run.value < |c.runs| && !IsPending(c.runs[obj.status.run.value].status))
    && (obj.status.version.Some? ==>
          obj.status.version.value < |c.versions| && c.versions[obj.status.version.value].status == Uploaded)
    && (obj.spec.vcs ==> c.repository)
  }

  /** A call that began at rank `r` ends settled, at rank zero, or at a lower rank, if the server was at rest;
      in any case it ends at no higher one. */
  predicate CallInv(s: Sys, r: nat, rest: bool)
    requires s.live.Some?
  {
    if s.phase == Idle then (s.returned == Settled && Rank(s) == 0) || (if rest then Rank(s) < r else Rank(s) <= r)
    else if StartingRun(s.phase) then r >= 2 && StartInv(s, r, rest)
    else
      && Rank(s) <= r && (rest ==> Resting(s.mem, s.cloud))
      && (rest && s.phase.StoringRunStatus? ==> !IsPending(s.phase.status))
      && (s.phase.SyncingVariables? && s.phase.updated ==> r >= 4 || (r >= 2 && s.mem.status.version.Some?))
      && (s.phase.SyncingTriggers? && s.phase.updated ==> r >= 4 || (r >= 2 && s.mem.status.version.Some?))
  }

  predicate StartInv(s: Sys, r: nat, rest: bool)
    requires s.live.Some?
  {
    if s.phase == ListingVersions then Rank(s) <= r && (rest ==> s.cloud.repository)
    else if s.phase == CreatingVersion || s.phase.Uploading? || s.phase.StoringVersion? then r >= 4
    else if s.phase == ReadingVersion then
      r >= 4 || (rest ==> s.mem.status.version.Some? && s.mem.status.version.value < |s.cloud.versions|
                          && s.cloud.versions[s.mem.status.version.value].status == Uploaded)
    else true
  }

  /****** Calls that only look ******/

  lemma FetchDescends(s: Sys, r: nat, rest: bool)
    requires CalmInv(s) && s.phase == Idle && Rank(s) <= r && (rest ==> Resting(s.live.value, s.cloud))
    ensures var t := AfterFetch(s, Done); CalmInv(t) && CallInv(t, r, rest)
  {
  }

  /** The object and the mirrored parts are the same. */
  predicate SameDuties(s: Sys, t: Sys) {
    && t.live == s.live && t.cluster.config == s.cluster.config && t.cluster.sources == s.cluster.sources
    && t.cluster.namespace == s.cluster.namespace && t.cluster.name == s.cluster.name
    && t.cloud.held.variables == s.cloud.held.variables && t.cloud.held.triggers == s.cloud.held.triggers
  }

  lemma SameRank(s: Sys, t: Sys)
    requires s.live.Some? && SameDuties(s, t)
    ensures Clean(t) == Clean(s) && Rank(t) == Rank(s)
  {
  }

  predicate Early(p: Phase) {
    p.CreatingWorkspace? || p.StoringWorkspace? || p.AdoptingRun? || p.AddingFinalizer? || p.Notifying?
  }

  lemma StillEarly(s: Sys, t: Sys, r: nat, rest: bool)
    requires CalmInv(s) && Rank(s) <= r && (rest ==> Resting(s.mem, s.cloud)) && s.phase != Idle
    requires SameDuties(s, t) && t.mem == s.mem && t.cloud.runs == s.cloud.runs && t.cloud.versions == s.cloud.versions
    requires t.cloud.repository == s.cloud.repository && Early(t.phase)
    ensures CalmInv(t) && CallInv(t, r, rest)
  {
    SameRank(s, t);
  }

  lemma ReadWorkspaceDescends(s: Sys, r: nat, rest: bool)
    requires CalmInv(s) && CallInv(s, r, rest) && s.phase == ReadingWorkspace
    ensures var t := AfterReadWorkspace(s, Done); CalmInv(t) && CallInv(t, r, rest)
  {
    StillEarly(s, AfterReadWorkspace(s, Done), r, rest);
  }

  lemma CreateWorkspaceDescends(s: Sys, r: nat, rest: bool)
    requires CalmInv(s) && CallInv(s, r, rest) && s.phase == CreatingWorkspace
    ensures var t := AfterCreateWorkspace(s, Done); CalmInv(t) && CallInv(t, r, rest)
  {
    StillEarly(s, AfterCreateWorkspace(s, Done), r, rest);
  }

  /** The status that a call reads of its run. */
  function StatusRead(s: Sys): RunStatus {
    if s.mem.status.run.None? || s.mem.status.run.value >= |s.cloud.runs| then NoStatus
    else s.cloud.runs[s.mem.status.run.value].status
  }

  lemma ReadRunLeads(s: Sys)
    requires s.phase == ReadingRun && (s.mem.status.run.Some? ==> s.mem.status.run.value < |s.cloud.runs|)
    ensures AfterReadRun(s, Done) ==
            if StatusRead(s) != s.mem.status.runStatus then s.(phase := StoringRunStatus(StatusRead(s)))
            else Return(s, Requeue)
  {
  }

  lemma ReadRunDescends(s: Sys, r: nat, rest: bool)
    requires CalmInv(s) && CallInv(s, r, rest) && s.phase == ReadingRun && PhaseInv(s) && RunInv(s)
    ensures var t := AfterReadRun(s, Done); CalmInv(t) && CallInv(t, r, rest)
  {
    RunIsKnown(s);
    ReadRunLeads(s);
    if StatusRead(s) != s.mem.status.runStatus {
      ChangeIsSeen(s, r, rest);
    } else {
      SameRank(s, Return(s, Requeue));
    }
  }

  lemma RunIsKnown(s: Sys)
    requires RunInv(s) && PhaseInv(s) && s.phase == ReadingRun
    ensures IsPending(s.mem.status.runStatus) && (s.mem.status.run.Some? ==> s.mem.status.run.value < |s.cloud.runs|)
  {
  }

  lemma ChangeIsSeen(s: Sys, r: nat, rest: bool)
    requires CalmInv(s) && CallInv(s, r, rest) && s.phase == ReadingRun && IsPending(s.mem.status.runStatus)
    ensures var t := s.(phase := StoringRunStatus(StatusRead(s))); CalmInv(t) && CallInv(t, r, rest)
  {
    SameRank(s, s.(phase := StoringRunStatus(StatusRead(s))));
  }

  lemma ReadStateDescends(s: Sys, r: nat, rest: bool, outputs: seq<Outputs.OutputStatus>)
    requires CalmInv(s) && CallInv(s, r, rest) && s.phase == ReadingState
    ensures var t := AfterReadState(s, outputs, Done); CalmInv(t) && CallInv(t, r, rest)
  {
    SameRank(s, AfterReadState(s, outputs, Done));
  }

  lemma NotifyDescends(s: Sys, r: nat, rest: bool, calls: seq<Notifications.Call>)
    requires CalmInv(s) && CallInv(s, r, rest) && s.phase == Notifying
    ensures var t := AfterNotify(s, calls, true); CalmInv(t) && CallInv(t, r, rest)
  {
    SameRank(s, AfterNotify(s, calls, true));
  }

  lemma PutSecretDescends(s: Sys, r: nat, rest: bool)
    requires CalmInv(s) && CallInv(s, r, rest) && s.phase == PublishingSecret
    ensures var t := AfterPutSecret(s, Done); CalmInv(t) && CallInv(t, r, rest)
  {
    SameRank(s, AfterPutSecret(s, Done));
  }

  /****** Calls that bring something into step ******/

  lemma PutConfigDescends(s: Sys, r: nat, rest: bool)
    requires CalmInv(s) && CallInv(s, r, rest) && s.phase == Templating && PhaseInv(s)
    ensures var t := AfterPutConfig(s, Done); CalmInv(t) && CallInv(t, r, rest)
  {
    var t := AfterPutConfig(s, Done);
    assert Clean(s) ==> Clean(t);
  }

  lemma SyncVariablesDescends(s: Sys, r: nat, rest: bool, shown: seq<Variables.Listed>, changes: seq<Variables.Call>)
    requires CalmInv(s) && CallInv(s, r, rest) && s.phase.SyncingVariables? && PhaseInv(s)
    requires AllowedVariables(s, shown, changes, true)
    ensures var t := AfterSyncVariables(s, shown, changes, true); CalmInv(t) && CallInv(t, r, rest)
  {
    MirroredNeedsNothing(s, shown, changes);
    VariablesSynced(s, r, rest, shown, changes);
  }

  lemma MirroredNeedsNothing(s: Sys, shown: seq<Variables.Listed>, changes: seq<Variables.Call>)
    requires s.live == Some(s.mem) && AllowedVariables(s, shown, changes, true) && Runnable(s.mem, s.cluster)
    ensures Wanted(s).Some?
    ensures Clean(s) ==> changes == [] && !Variables.Plan(Wanted(s).value, s.cluster.sources.mount, shown).updated
  {
    var r := s.cloud.held.variables;
    if Clean(s) {
      Variables.NoCallsWhenMirrored(Wanted(s).value, s.cluster.sources.mount, shown, r);
    }
  }

  lemma VariablesSynced(s: Sys, r: nat, rest: bool, shown: seq<Variables.Listed>, changes: seq<Variables.Call>)
    requires CalmInv(s) && CallInv(s, r, rest) && s.phase.SyncingVariables? && PhaseInv(s) && Wanted(s).Some?
    requires Clean(s) ==> changes == [] && !Variables.Plan(Wanted(s).value, s.cluster.sources.mount, shown).updated
    ensures var t := AfterSyncVariables(s, shown, changes, true); CalmInv(t) && CallInv(t, r, rest)
  {
    var t := AfterSyncVariables(s, shown, changes, true);
    assert Clean(s) ==> t.cloud.held == s.cloud.held;
  }

  lemma SyncTriggersDescends(s: Sys, r: nat, rest: bool, inbound: seq<RunTriggers.Listed>, edits: seq<RunTriggers.Call>)
    requires CalmInv(s) && CallInv(s, r, rest) && s.phase.SyncingTriggers? && PhaseInv(s) && MirrorInv(s)
    requires AllowedTriggers(s, inbound, edits, true)
    ensures var t := AfterSyncTriggers(s, inbound, edits, true); CalmInv(t) && CallInv(t, r, rest)
  {
    var spec, r0 := s.mem.spec.runTriggers, s.cloud.held.triggers;
    RunTriggers.PlanConverges(spec, inbound, r0);
    if Clean(s) {
      RunTriggers.NoCallsWhenMirrored(spec, inbound, r0);
    }
    SyncedSpecIsMirrored(s, edits);
    TriggersSynced(s, r, rest, inbound, edits);
  }

  lemma SyncedSpecIsMirrored(s: Sys, edits: seq<RunTriggers.Call>)
    requires CalmInv(s) && s.phase.SyncingTriggers? && MirrorInv(s)
    requires RunTriggers.Mirrors(s.mem.spec.runTriggers, RunTriggers.ApplyAll(s.cloud.held.triggers, edits))
    ensures SpecMirrored(s.mem.spec, s.cluster,
            s.cloud.held.(triggers := RunTriggers.ApplyAll(s.cloud.held.triggers, edits)))
  {
  }

  lemma TriggersSynced(s: Sys, r: nat, rest: bool, inbound: seq<RunTriggers.Listed>, edits: seq<RunTriggers.Call>)
    requires CalmInv(s) && CallInv(s, r, rest) && s.phase.SyncingTriggers? && PhaseInv(s)
    requires Clean(s) ==> RunTriggers.Plan(s.mem.spec.runTriggers, inbound) == [] && edits == []
    requires SpecMirrored(s.mem.spec, s.cluster,
             s.cloud.held.(triggers := RunTriggers.ApplyAll(s.cloud.held.triggers, edits)))
    ensures var t := AfterSyncTriggers(s, inbound, edits, true); CalmInv(t) && CallInv(t, r, rest)
  {
    var t := AfterSyncTriggers(s, inbound, edits, true);
    assert Clean(s) ==> Clean(t);
    if t.phase != Idle {
      TriggersStartRun(s, r, rest, inbound, edits);
    }
  }

  lemma TriggersStartRun(s: Sys, r: nat, rest: bool, inbound: seq<RunTriggers.Listed>, edits: seq<RunTriggers.Call>)
    requires CalmInv(s) && CallInv(s, r, rest) && s.phase.SyncingTriggers? && PhaseInv(s)
    requires Clean(s) ==> RunTriggers.Plan(s.mem.spec.runTriggers, inbound) == [] && edits == []
    requires SpecMirrored(s.mem.spec, s.cluster,
             s.cloud.held.(triggers := RunTriggers.ApplyAll(s.cloud.held.triggers, edits)))
    requires AfterSyncTriggers(s, inbound, edits, true).phase != Idle
    ensures var t := AfterSyncTriggers(s, inbound, edits, true);
            StartingRun(t.phase) && r >= 2 && StartInv(t, r, rest) && CalmInv(t)
  {
    var t := AfterSyncTriggers(s, inbound, edits, true);
    assert Clean(s) ==> Clean(t);
  }

  /****** Calls that lead to a run ******/

  lemma ListVersionsDescends(s: Sys, r: nat, rest: bool)
    requires CalmInv(s) && CallInv(s, r, rest) && s.phase == ListingVersions && PhaseInv(s)
    ensures var t := AfterListVersions(s, Done); CalmInv(t) && CallInv(t, r, rest)
  {
    SameRank(s, AfterListVersions(s, Done));
  }

  lemma CreateVersionDescends(s: Sys, r: nat, rest: bool)
    requires CalmInv(s) && CallInv(s, r, rest) && s.phase == CreatingVersion
    ensures var t := AfterCreateVersion(s, Done); CalmInv(t) && CallInv(t, r, rest)
  {
  }

  lemma UploadDescends(s: Sys, r: nat, rest: bool)
    requires CalmInv(s) && CallInv(s, r, rest) && s.phase.Uploading? && PhaseInv(s)
    ensures var t := AfterUpload(s, Done); CalmInv(t) && CallInv(t, r, rest)
  {
  }

  lemma ReadVersionDescends(s: Sys, r: nat, rest: bool)
    requires CalmInv(s) && CallInv(s, r, rest) && s.phase == ReadingVersion && PhaseInv(s)
    requires s.mem.status.version.Some? ==> s.mem.status.version.value < |s.cloud.versions|
    ensures var t := AfterReadVersion(s, Done); CalmInv(t) && CallInv(t, r, rest)
  {
  }

  lemma CreateRunDescends(s: Sys, r: nat, rest: bool, status: RunStatus)
    requires CalmInv(s) && CallInv(s, r, rest) && s.phase.CreatingRun?
    ensures var t := AfterCreateRun(s, status, Done); CalmInv(t) && CallInv(t, r, rest)
  {
  }

  /****** Writes of the object ******/

  /** The write went through, and changed nothing else that matters here. */
  predicate StatusIsWritten(s: Sys, status: Status, t: Sys) {
    && t.mem == s.mem.(status := status, revision := s.mem.revision + 1) && t.live == Some(t.mem)
    && t.cluster == s.cluster && t.cloud == s.cloud.(runs := t.cloud.runs, versions := t.cloud.versions)
    && |t.cloud.runs| == |s.cloud.runs| && |t.cloud.versions| == |s.cloud.versions|
    && (forall i :: 0 <= i < |s.cloud.runs| ==> t.cloud.runs[i].status == s.cloud.runs[i].status)
    && (forall v :: 0 <= v < |s.cloud.versions| ==> t.cloud.versions[v].status == s.cloud.versions[v].status)
    && t.phase == AfterStatus(t, s).phase && t.returned == AfterStatus(t, s).returned
  }

  /** In a calm run a write goes through. */
  lemma CalmWrite(s: Sys, status: Status)
    requires CalmInv(s) && NextStatus(s) == Some(status)
    ensures StatusIsWritten(s, status, AfterWriteStatus(s, status, Done))
  {
    CalmWriteIsFresh(s);
    var noted := Note(Written(s, Done, s.mem.(status := status)), true);
    NotingKeepsStatuses(Written(s, Done, s.mem.(status := status)));
    OnlyControlFollows(noted, s);
  }

  /** What comes after a status write is only a matter of where the call goes on. */
  lemma OnlyControlFollows(s: Sys, before: Sys)
    ensures var t := AfterStatus(s, before);
            && t == s.(phase := t.phase, returned := t.returned)
            && AfterStatus(t, before).phase == t.phase && AfterStatus(t, before).returned == t.returned
  {
  }

  lemma CalmWriteIsFresh(s: Sys)
    requires CalmInv(s) && s.phase != Idle
    ensures Fresh(s) && !s.mem.deleting
  {
  }

  lemma NotingKeepsStatuses(s: Sys)
    ensures var t := Note(s, true);
            && t == s.(cloud := s.cloud.(runs := t.cloud.runs, versions := t.cloud.versions))
            && |t.cloud.runs| == |s.cloud.runs| && |t.cloud.versions| == |s.cloud.versions|
            && (forall i :: 0 <= i < |s.cloud.runs| ==> t.cloud.runs[i].status == s.cloud.runs[i].status)
            && (forall v :: 0 <= v < |s.cloud.versions| ==> t.cloud.versions[v].status == s.cloud.versions[v].status)
  {
  }

  lemma SameOwed(s: Sys, t: Sys)
    requires s.live.Some? && t.live.Some? && t.live.value.spec == s.live.value.spec
    requires t.live.value.status.run.Some? == s.live.value.status.run.Some?
    requires t.live.value.status.version == s.live.value.status.version
    requires t.cluster == s.cluster && t.cloud.held == s.cloud.held
    ensures Clean(t) == Clean(s) && Owed(t) == Owed(s)
  {
  }

  lemma StoreWorkspaceDescends(s: Sys, r: nat, rest: bool, status: Status)
    requires CalmInv(s) && CallInv(s, r, rest) && s.phase.StoringWorkspace? && NextStatus(s) == Some(status)
    ensures var t := AfterWriteStatus(s, status, Done); CalmInv(t) && CallInv(t, r, rest)
  {
    CalmWrite(s, status);
    WorkspaceIsStored(s, r, rest, status, AfterWriteStatus(s, status, Done));
  }

  lemma WorkspaceIsStored(s: Sys, r: nat, rest: bool, status: Status, t: Sys)
    requires CalmInv(s) && CallInv(s, r, rest) && s.phase.StoringWorkspace? && NextStatus(s) == Some(status)
    requires StatusIsWritten(s, status, t)
    ensures CalmInv(t) && CallInv(t, r, rest)
  {
    SameOwed(s, t);
    assert t.phase.AdoptingRun? || t.phase == Notifying || t.phase == AddingFinalizer;
  }

  lemma AdoptRunDescends(s: Sys, r: nat, rest: bool, status: Status)
    requires CalmInv(s) && CallInv(s, r, rest) && s.phase.AdoptingRun? && NextStatus(s) == Some(status)
    requires PhaseInv(s) && RunInv(s)
    ensures var t := AfterWriteStatus(s, status, Done); CalmInv(t) && CallInv(t, r, rest)
  {
    CalmWrite(s, status);
    if IsPending(s.mem.status.runStatus) {
      PendingIsLatest(s);
    }
    RunIsAdopted(s, r, rest, status, AfterWriteStatus(s, status, Done));
  }

  lemma RunIsAdopted(s: Sys, r: nat, rest: bool, status: Status, t: Sys)
    requires CalmInv(s) && CallInv(s, r, rest) && s.phase.AdoptingRun? && NextStatus(s) == Some(status)
    requires StatusIsWritten(s, status, t) && s.mem.status.run.Some?
    requires IsPending(s.mem.status.runStatus) ==> s.mem.status.run == Some(s.phase.latest)
    ensures CalmInv(t) && CallInv(t, r, rest)
  {
    SameOwed(s, t);
    assert t.phase == Notifying || t.phase == AddingFinalizer;
  }

  /** A run that is taken to be under way is the latest. */
  lemma PendingIsLatest(s: Sys)
    requires RunInv(s) && s.live.Some? && !Doomed(s) && IsPending(s.live.value.status.runStatus) && s.cloud.runs != []
    requires s.live.value.status.run.Some? ==> s.live.value.status.run.value < |s.cloud.runs|
    ensures s.live.value.status.run == CurrentRun(s.cloud)
  {
    assert s.cloud.runs[|s.cloud.runs| - 1].kind.Apply?;
  }
}

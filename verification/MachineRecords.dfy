/** The steps that change the records of workspaces, runs and versions keep the invariant: calls to the server that
    create or cancel, and what the server does on its own. */
module MachineRecords {
  import opened Options
  import opened Outcomes
  import opened Runs
  import opened Machine
  import opened MachineInvariants

  /****** Counting and tracking when the runs change ******/

  lemma {:induction false} SameCount(a: seq<Run>, b: seq<Run>)
    requires |a| == |b| && forall i :: 0 <= i < |a| ==> a[i].kind == b[i].kind && a[i].recorded == b[i].recorded
    ensures Unrecorded(a) == Unrecorded(b)
  {
    if a != [] {
      SameCount(a[..|a| - 1], b[..|b| - 1]);
    }
  }

  lemma OneMore(runs: seq<Run>, run: Run)
    ensures Unrecorded(runs + [run]) == Unrecorded(runs) + if run.kind.Apply? && !run.recorded then 1 else 0
  {
    assert (runs + [run])[..|runs|] == runs;
  }

  /** The runs are the same ones, no longer pending than before. */
  predicate Progressed(a: seq<Run>, b: seq<Run>) {
    && |a| == |b|
    && forall i :: 0 <= i < |a| ==>
         && b[i].kind == a[i].kind && b[i].recorded == a[i].recorded && MayBecome(a[i].status, b[i].status)
         && (a[i].cancelled ==> b[i].cancelled)
  }

  lemma TracksProgressed(st: Status, a: seq<Run>, b: seq<Run>)
    requires Tracks(st, a) && Progressed(a, b)
    ensures Tracks(st, b)
  {
    if st.run.Some? {
      var last := st.run.value;
      var i :| 0 <= i <= last && i < |a| && MayBecome(st.runStatus, a[i].status) &&
          (i == last || !IsPending(st.runStatus));
      assert MayBecome(st.runStatus, b[i].status);
    }
  }

  lemma TracksOneMore(st: Status, runs: seq<Run>, run: Run)
    requires Tracks(st, runs) && !run.recorded && (run.kind.Destroy? || !IsPending(st.runStatus))
    ensures Tracks(st, runs + [run])
  {
    if st.run.Some? {
      var last := st.run.value;
      var i :| 0 <= i <= last && i < |runs| && MayBecome(st.runStatus, runs[i].status) &&
          (i == last || !IsPending(st.runStatus));
      assert (runs + [run])[i] == runs[i];
    }
  }

  lemma RunsProgressed(s: Sys, t: Sys)
    requires RunInv(s) && SameObject(s, t) && SameKind(s, t) && t.lost == s.lost
    requires Progressed(s.cloud.runs, t.cloud.runs) && (s.phase.RecordingRun? <==> t.phase.RecordingRun?)
    ensures RunInv(t)
  {
    SameCount(s.cloud.runs, t.cloud.runs);
    if s.live.Some? {
      TracksProgressed(s.live.value.status, s.cloud.runs, t.cloud.runs);
    }
    if s.phase != Idle {
      TracksProgressed(s.mem.status, s.cloud.runs, t.cloud.runs);
    }
  }

  lemma VersionsProgressed(s: Sys, t: Sys)
    requires VersionInv(s) && SameObject(s, t) && SameKind(s, t)
    requires Progressed(s.cloud.runs, t.cloud.runs) && |s.cloud.versions| <= |t.cloud.versions|
    requires forall v :: 0 <= v < |s.cloud.versions| ==>
               (s.cloud.versions[v].stored ==> t.cloud.versions[v].stored) &&
                   (s.cloud.versions[v].seen ==> t.cloud.versions[v].seen)
    requires forall v :: 0 <= v < |t.cloud.versions| && t.cloud.versions[v].seen ==>
             t.cloud.versions[v].status == Uploaded
    ensures VersionInv(t)
  {
  }

  lemma StoppedProgressed(a: seq<Run>, b: seq<Run>, listed: nat, todo: seq<nat>)
    requires Stopped(a, listed, todo) && Progressed(a, b)
    ensures Stopped(b, listed, todo)
  {
  }

  /****** Deletion ******/

  lemma ForceCancelKeeps(s: Sys, o: Outcome)
    requires s.phase.Cancelling? && s.phase.todo != [] && Inv(s)
    ensures Inv(AfterForceCancel(s, o))
  {
    var t := AfterForceCancel(s, o);
    var runs, i := s.cloud.runs, s.phase.todo[0];
    assert i in s.phase.todo;
    ForceCancelStops(s, o);
    CopyFrame(s, t);
    ObjectFrame(s, t);
    RunsProgressed(s, t);
    VersionsProgressed(s, t);
  }

  lemma ForceCancelStops(s: Sys, o: Outcome)
    requires s.phase.Cancelling? && s.phase.todo != [] && s.phase.todo[0] < |s.cloud.runs| && PhaseInv(s)
    requires forall i :: 0 <= i < |s.cloud.runs| ==> s.cloud.runs[i].status != NoStatus
    ensures var t := AfterForceCancel(s, o);
            PhaseInv(t) && SameObject(s, t) && SameKind(s, t) && Progressed(s.cloud.runs, t.cloud.runs)
            && t == s.(cloud := s.cloud.(runs := t.cloud.runs), phase := t.phase, returned := t.returned) &&
               !t.phase.RecordingRun?
  {
    var t := AfterForceCancel(s, o);
    StoppedProgressed(s.cloud.runs, t.cloud.runs, s.phase.listed, s.phase.todo);
    if o.Done? {
      assert Stopped(t.cloud.runs, s.phase.listed, s.phase.todo[1..]) by {
        var todo := s.phase.todo;
        assert todo == [todo[0]] + todo[1..];
        assert forall i :: i in todo <==> i == todo[0] || i in todo[1..];
      }
    }
  }

  lemma CreateDestroyRunKeeps(s: Sys, status: RunStatus, o: Outcome)
    requires s.phase.CreatingDestroyRun? && status != NoStatus && Inv(s)
    ensures Inv(AfterCreateDestroyRun(s, status, o))
  {
    var t, run := AfterCreateDestroyRun(s, status, o), Run(Destroy, status, false, false);
    CopyFrame(s, t);
    ObjectFrame(s, t);
    if o.Effective() {
      RunAdded(s, t, run);
      VersionsWithRun(s, t, run);
      DestroyRunStarts(s, status, o);
    }
  }

  /** A run is added that the status does not know of. */
  lemma RunAdded(s: Sys, t: Sys, run: Run)
    requires RunInv(s) && SameObject(s, t) && SameKind(s, t) && t.cloud.runs == s.cloud.runs + [run] && !run.recorded
    requires run.status != NoStatus
    requires if run.kind.Destroy? then Doomed(s)
             else s.phase != Idle && !IsPending(s.mem.status.runStatus)
                  && (s.live.Some? ==> !IsPending(s.live.value.status.runStatus))
    requires run.kind.Apply? ==> !Doomed(s)
    requires t.lost + (if t.phase.RecordingRun? then 1 else 0)
          == s.lost + (if s.phase.RecordingRun? then 1 else 0) + if run.kind.Apply? then 1 else 0
    ensures RunInv(t)
  {
    OneMore(s.cloud.runs, run);
    if s.live.Some? {
      TracksOneMore(s.live.value.status, s.cloud.runs, run);
    }
    if s.phase != Idle {
      TracksOneMore(s.mem.status, s.cloud.runs, run);
    }
  }

  lemma VersionsWithRun(s: Sys, t: Sys, run: Run)
    requires VersionInv(s) && SameObject(s, t) && s.phase != Idle
    requires t.cloud == s.cloud.(runs := s.cloud.runs + [run])
    requires run.kind.Apply? && run.kind.version.Some? ==>
               && Ready(run.kind.version.value, s.cloud) && s.mem.status.version.None?
               && (s.live.Some? ==> s.live.value.status.version.None?)
    ensures VersionInv(t)
  {
  }

  lemma DestroyRunStarts(s: Sys, status: RunStatus, o: Outcome)
    requires s.phase.CreatingDestroyRun? && PhaseInv(s)
    ensures PhaseInv(AfterCreateDestroyRun(s, status, o))
  {
  }

  lemma DeleteWorkspaceKeeps(s: Sys, o: Outcome)
    requires s.phase.DeletingWorkspace? && Inv(s)
    ensures Inv(AfterDeleteWorkspace(s, o))
  {
    var t := AfterDeleteWorkspace(s, o);
    CopyFrame(s, t);
    ObjectFrame(s, t);
    RunFrame(s, t);
    VersionFrame(s, t);
  }

  /****** Creation ******/

  lemma WorkspaceIsNew(s: Sys, o: Outcome)
    requires s.phase == CreatingWorkspace && PhaseInv(s)
    ensures PhaseInv(AfterCreateWorkspace(s, o)) && SameObject(s, AfterCreateWorkspace(s, o)) &&
            SameKind(s, AfterCreateWorkspace(s, o))
  {
  }

  lemma CreateWorkspaceKeeps(s: Sys, o: Outcome)
    requires s.phase == CreatingWorkspace && Inv(s)
    ensures Inv(AfterCreateWorkspace(s, o))
  {
    var t := AfterCreateWorkspace(s, o);
    WorkspaceIsNew(s, o);
    CopyFrame(s, t);
    ObjectFrame(s, t);
    RunFrame(s, t);
    VersionFrame(s, t);
  }

  lemma CreateVersionKeeps(s: Sys, o: Outcome)
    requires s.phase == CreatingVersion && Inv(s)
    ensures Inv(AfterCreateVersion(s, o))
  {
    var t := AfterCreateVersion(s, o);
    CopyFrame(s, t);
    ObjectFrame(s, t);
    RunFrame(s, t);
    VersionsProgressed(s, t);
  }

  lemma VersionIsGiven(s: Sys, o: Outcome)
    requires s.phase.Uploading? && PhaseInv(s)
    ensures PhaseInv(AfterUpload(s, o)) && SameObject(s, AfterUpload(s, o)) && SameKind(s, AfterUpload(s, o))
  {
  }

  lemma UploadKeeps(s: Sys, o: Outcome)
    requires s.phase.Uploading? && Inv(s)
    ensures Inv(AfterUpload(s, o))
  {
    var t := AfterUpload(s, o);
    VersionIsGiven(s, o);
    CopyFrame(s, t);
    ObjectFrame(s, t);
    RunFrame(s, t);
    VersionsProgressed(s, t);
  }

  lemma VersionIsSeen(s: Sys, o: Outcome)
    requires s.phase == ReadingVersion && VersionInv(s) && PhaseInv(s)
    ensures PhaseInv(AfterReadVersion(s, o)) && SameObject(s, AfterReadVersion(s, o)) &&
            SameKind(s, AfterReadVersion(s, o))
  {
  }

  lemma ReadVersionKeeps(s: Sys, o: Outcome)
    requires s.phase == ReadingVersion && Inv(s)
    ensures Inv(AfterReadVersion(s, o))
  {
    var t := AfterReadVersion(s, o);
    VersionIsSeen(s, o);
    CopyFrame(s, t);
    ObjectFrame(s, t);
    RunFrame(s, t);
    VersionsProgressed(s, t);
  }

  lemma CreateRunKeeps(s: Sys, status: RunStatus, o: Outcome)
    requires s.phase.CreatingRun? && status != NoStatus && Inv(s)
    ensures Inv(AfterCreateRun(s, status, o))
  {
    var t, run := AfterCreateRun(s, status, o), Run(Apply(s.phase.cleared), status, false, false);
    ApplyRunStarts(s, status, o);
    CopyFrame(s, t);
    ObjectFrame(s, t);
    if o.Effective() {
      RunAdded(s, t, run);
      VersionsWithRun(s, t, run);
    }
  }

  lemma ApplyRunStarts(s: Sys, status: RunStatus, o: Outcome)
    requires s.phase.CreatingRun? && status != NoStatus && PhaseInv(s) && CopyInv(s)
    ensures PhaseInv(AfterCreateRun(s, status, o))
    ensures SameObject(s, AfterCreateRun(s, status, o)) && SameKind(s, AfterCreateRun(s, status, o)) && !Doomed(s)
    ensures s.live.Some? ==>
              && !IsPending(s.live.value.status.runStatus)
              && (s.phase.cleared.Some? ==> s.live.value.status.version.None? && s.mem.status.version.None?)
    ensures s.phase.cleared.Some? ==> Ready(s.phase.cleared.value, s.cloud)
  {
  }

  /****** The server ******/

  lemma AdvanceKeeps(s: Sys, statuses: seq<RunStatus>)
    requires AtServerMove(s, Advance(statuses)) && Inv(s)
    ensures Inv(AfterAdvance(s, statuses))
  {
    var t := AfterAdvance(s, statuses);
    CopyFrame(s, t);
    ObjectFrame(s, t);
    RunsProgressed(s, t);
    VersionsProgressed(s, t);
    PhaseProgressed(s, t);
  }

  lemma PhaseProgressed(s: Sys, t: Sys)
    requires PhaseInv(s) && t.phase == s.phase && t.mem == s.mem && Progressed(s.cloud.runs, t.cloud.runs)
    requires t.cloud.workspace == s.cloud.workspace && t.cloud.issued == s.cloud.issued
    requires |s.cloud.versions| == |t.cloud.versions|
    requires forall v :: 0 <= v < |s.cloud.versions| ==>
               t.cloud.versions[v].stored == s.cloud.versions[v].stored &&
                   t.cloud.versions[v].seen == s.cloud.versions[v].seen
    ensures PhaseInv(t)
  {
  }

  lemma ProcessKeeps(s: Sys, v: nat, result: VersionStatus)
    requires AtServerMove(s, Process(v, result)) && Inv(s)
    ensures Inv(AfterProcess(s, v, result))
  {
    var t := AfterProcess(s, v, result);
    assert Progressed(s.cloud.runs, s.cloud.runs);
    CopyFrame(s, t);
    ObjectFrame(s, t);
    RunFrame(s, t);
    VersionsProgressed(s, t);
    PhaseProgressed(s, t);
  }
}

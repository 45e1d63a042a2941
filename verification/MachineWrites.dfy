/** The steps that read or write the object keep the invariant: the operator's, and the users'. */
module MachineWrites {
  import opened Options
  import opened Outcomes
  import opened Runs
  import opened Workspace
  import opened Machine
  import opened MachineInvariants
  import Finalizers

  /****** A write of the status ******/

  /** `status` may replace the status, with the records of the server as in `c`. */
  predicate Fits(s: Sys, status: Status, c: Cloud) {
    && SoundObject(s.mem.(status := status), c) && Tracks(status, c.runs) && HeldVersion(status, c)
  }

  /** The new status is both in the cluster and in memory. */
  predicate Stored(s: Sys, t: Sys, status: Status) {
    && t.mem == s.mem.(status := status, revision := s.mem.revision + 1) && t.live == Some(t.mem)
  }

  /** The server's records are as before, except for versions that the status now knows. */
  predicate SameButStored(s: Sys, t: Sys) {
    && t.cloud.workspace == s.cloud.workspace && t.cloud.issued == s.cloud.issued
    && t.cloud.runs == s.cloud.runs && t.lost == s.lost && |t.cloud.versions| == |s.cloud.versions|
    && forall v :: 0 <= v < |s.cloud.versions| ==>
         && (s.cloud.versions[v].stored ==> t.cloud.versions[v].stored)
         && t.cloud.versions[v].(stored := true) == s.cloud.versions[v].(stored := true)
  }

  lemma StoredKeeps(s: Sys, t: Sys, status: Status)
    requires Inv(s) && s.phase != Idle && !InDeletion(s.phase) && Stored(s, t, status) && Fits(s, status, t.cloud)
    requires !InDeletion(t.phase) && !s.phase.RecordingRun? && !t.phase.RecordingRun? && SameButStored(s, t)
    ensures CopyInv(t) && ObjectInv(t) && RunInv(t) && VersionInv(t)
  {
  }

  /** A write that did not go through ends the call. */
  lemma UnwrittenKeeps(s: Sys, status: Status, o: Outcome)
    requires Inv(s) && s.phase != Idle && NextStatus(s).Some? && !Persists(s, o)
    ensures Inv(AfterWriteStatus(s, status, o))
  {
    CrashKeeps(s);
    var t, u := AfterWriteStatus(s, status, o), AfterCrash(s);
    assert t == u.(returned := Error);
    CopyFrame(u, t);
    ObjectFrame(u, t);
    RunFrame(u, t);
    VersionFrame(u, t);
  }

  lemma CrashKeeps(s: Sys)
    requires Inv(s)
    ensures Inv(AfterCrash(s))
  {
    var t := AfterCrash(s);
    CopyFrame(s, t);
    ObjectFrame(s, t);
    VersionFrame(s, t);
    Forgotten(s);
  }

  lemma Forgotten(s: Sys)
    requires RunInv(s) && PhaseInv(s)
    ensures RunInv(AfterCrash(s))
  {
  }

  /** What the copy says is what the cluster has. */
  lemma CopyFits(s: Sys)
    requires Inv(s) && s.phase != Idle && !InDeletion(s.phase) && Fresh(s)
    ensures Tracks(s.mem.status, s.cloud.runs) && SoundObject(s.mem, s.cloud) && HeldVersion(s.mem.status, s.cloud)
    ensures forall i :: 0 <= i < |s.cloud.runs| ==> s.cloud.runs[i].kind.Apply?
  {
  }

  /** The write of a status that fits, where the server's records take no note of it. */
  lemma WriteKeeps(s: Sys, status: Status, o: Outcome)
    requires Inv(s) && NextStatus(s) == Some(status) && Persists(s, o) && Fits(s, status, s.cloud)
    requires !s.phase.RecordingRun? && !s.phase.StoringVersion?
    requires PhaseInv(AfterWriteStatus(s, status, o))
    ensures Inv(AfterWriteStatus(s, status, o))
  {
    WriteStores(s, status, o);
    StoredKeeps(s, AfterWriteStatus(s, status, o), status);
  }

  lemma WriteStores(s: Sys, status: Status, o: Outcome)
    requires CopyInv(s) && NextStatus(s) == Some(status) && Persists(s, o)
    requires !s.phase.RecordingRun? && !s.phase.StoringVersion?
    ensures var t := AfterWriteStatus(s, status, o);
            Stored(s, t, status) && SameRecords(s, t) && !InDeletion(t.phase) && !t.phase.RecordingRun?
  {
  }

  lemma StoreWorkspaceFits(s: Sys, status: Status, o: Outcome)
    requires s.phase.StoringWorkspace? && PhaseInv(s) && NextStatus(s) == Some(status) && Persists(s, o)
    requires Tracks(s.mem.status, s.cloud.runs) && SoundObject(s.mem, s.cloud) && HeldVersion(s.mem.status, s.cloud)
    ensures Fits(s, status, s.cloud) && PhaseInv(AfterWriteStatus(s, status, o))
  {
    var t := AfterWriteStatus(s, status, o);
    assert t.mem.status == status && t.cloud == s.cloud;
  }

  lemma AdoptRunFits(s: Sys, status: Status, o: Outcome)
    requires s.phase.AdoptingRun? && PhaseInv(s) && NextStatus(s) == Some(status) && Persists(s, o)
    requires Tracks(s.mem.status, s.cloud.runs) && SoundObject(s.mem, s.cloud) && HeldVersion(s.mem.status, s.cloud)
    requires forall i :: 0 <= i < |s.cloud.runs| ==> s.cloud.runs[i].kind.Apply?
    ensures Fits(s, status, s.cloud) && PhaseInv(AfterWriteStatus(s, status, o))
  {
    AdoptedRunTracks(s.mem.status, s.cloud.runs, s.phase.latest);
    AdoptedRunLeads(s, status, o);
  }

  lemma AdoptedRunLeads(s: Sys, status: Status, o: Outcome)
    requires s.phase.AdoptingRun? && PhaseInv(s) && NextStatus(s) == Some(status) && Persists(s, o)
    ensures PhaseInv(AfterWriteStatus(s, status, o)) && CurrentRun(s.cloud) == Some(s.phase.latest)
  {
  }

  /** A pending status is never passed on to another run. */
  lemma AdoptedRunTracks(st: Status, runs: seq<Run>, latest: nat)
    requires Tracks(st, runs) && st.run.Some? && st.run.value < |runs| && latest == |runs| - 1
    requires forall i :: 0 <= i < |runs| ==> runs[i].kind.Apply?
    ensures Tracks(st.(run := Some(latest)), runs)
  {
    assert runs[latest].kind.Apply?;
  }

  lemma StoreRunStatusFits(s: Sys, status: Status, o: Outcome)
    requires s.phase.StoringRunStatus? && PhaseInv(s) && NextStatus(s) == Some(status) && Persists(s, o)
    requires Tracks(s.mem.status, s.cloud.runs) && SoundObject(s.mem, s.cloud) && HeldVersion(s.mem.status, s.cloud)
    ensures Fits(s, status, s.cloud) && PhaseInv(AfterWriteStatus(s, status, o))
  {
  }

  lemma StoreOutputsFits(s: Sys, status: Status, o: Outcome)
    requires s.phase.StoringOutputs? && PhaseInv(s) && NextStatus(s) == Some(status) && Persists(s, o)
    requires Tracks(s.mem.status, s.cloud.runs) && SoundObject(s.mem, s.cloud) && HeldVersion(s.mem.status, s.cloud)
    ensures Fits(s, status, s.cloud) && PhaseInv(AfterWriteStatus(s, status, o))
  {
  }

  lemma ClearVersionFits(s: Sys, status: Status, o: Outcome)
    requires s.phase == ClearingVersion && PhaseInv(s) && NextStatus(s) == Some(status) && Persists(s, o)
    requires Tracks(s.mem.status, s.cloud.runs) && SoundObject(s.mem, s.cloud) && HeldVersion(s.mem.status, s.cloud)
    ensures Fits(s, status, s.cloud) && PhaseInv(AfterWriteStatus(s, status, o))
  {
  }

  lemma StoreWorkspaceKeeps(s: Sys, status: Status, o: Outcome)
    requires s.phase.StoringWorkspace? && Inv(s) && NextStatus(s) == Some(status) && Persists(s, o)
    ensures Inv(AfterWriteStatus(s, status, o))
  {
    CopyFits(s);
    StoreWorkspaceFits(s, status, o);
    WriteKeeps(s, status, o);
  }

  lemma AdoptRunKeeps(s: Sys, status: Status, o: Outcome)
    requires s.phase.AdoptingRun? && Inv(s) && NextStatus(s) == Some(status) && Persists(s, o)
    ensures Inv(AfterWriteStatus(s, status, o))
  {
    CopyFits(s);
    AdoptRunFits(s, status, o);
    WriteKeeps(s, status, o);
  }

  lemma StoreRunStatusKeeps(s: Sys, status: Status, o: Outcome)
    requires s.phase.StoringRunStatus? && Inv(s) && NextStatus(s) == Some(status) && Persists(s, o)
    ensures Inv(AfterWriteStatus(s, status, o))
  {
    CopyFits(s);
    StoreRunStatusFits(s, status, o);
    WriteKeeps(s, status, o);
  }

  lemma StoreOutputsKeeps(s: Sys, status: Status, o: Outcome)
    requires s.phase.StoringOutputs? && Inv(s) && NextStatus(s) == Some(status) && Persists(s, o)
    ensures Inv(AfterWriteStatus(s, status, o))
  {
    CopyFits(s);
    StoreOutputsFits(s, status, o);
    WriteKeeps(s, status, o);
  }

  lemma ClearVersionKeeps(s: Sys, status: Status, o: Outcome)
    requires s.phase == ClearingVersion && Inv(s) && NextStatus(s) == Some(status) && Persists(s, o)
    ensures Inv(AfterWriteStatus(s, status, o))
  {
    CopyFits(s);
    ClearVersionFits(s, status, o);
    WriteKeeps(s, status, o);
  }

  lemma StoreVersionKeeps(s: Sys, status: Status, o: Outcome)
    requires s.phase.StoringVersion? && Inv(s) && NextStatus(s) == Some(status) && Persists(s, o)
    ensures Inv(AfterWriteStatus(s, status, o))
  {
    CopyFits(s);
    StoreVersionFits(s, status, o);
    StoredKeeps(s, AfterWriteStatus(s, status, o), status);
  }

  lemma StoreVersionFits(s: Sys, status: Status, o: Outcome)
    requires s.phase.StoringVersion? && PhaseInv(s) && CopyInv(s) && NextStatus(s) == Some(status) && Persists(s, o)
    requires Tracks(s.mem.status, s.cloud.runs) && SoundObject(s.mem, s.cloud) && VersionInv(s)
    ensures var t := AfterWriteStatus(s, status, o);
            && Stored(s, t, status) && Fits(s, status, t.cloud) && PhaseInv(t)
            && !InDeletion(t.phase) && !t.phase.RecordingRun? && SameButStored(s, t)
  {
    StoredVersionLeads(s, status, o);
  }

  lemma StoredVersionLeads(s: Sys, status: Status, o: Outcome)
    requires s.phase.StoringVersion? && PhaseInv(s) && CopyInv(s) && NextStatus(s) == Some(status) && Persists(s, o)
    ensures var t := AfterWriteStatus(s, status, o);
            && Stored(s, t, status) && PhaseInv(t) && !InDeletion(t.phase) && !t.phase.RecordingRun? &&
               SameButStored(s, t)
    ensures !s.cloud.versions[s.phase.version].stored &&
            AfterWriteStatus(s, status, o).cloud.versions[s.phase.version].stored
  {
  }

  lemma RecordRunKeeps(s: Sys, status: Status, o: Outcome)
    requires s.phase.RecordingRun? && Inv(s) && NextStatus(s) == Some(status) && Persists(s, o)
    ensures Inv(AfterWriteStatus(s, status, o))
  {
    var t := AfterWriteStatus(s, status, o);
    RunIsRecorded(s, t, status, o);
    RunRecorded(s, t, status);
  }

  lemma RunIsRecorded(s: Sys, t: Sys, status: Status, o: Outcome)
    requires s.phase.RecordingRun? && CopyInv(s) && PhaseInv(s) && NextStatus(s) == Some(status) && Persists(s, o)
    requires t == AfterWriteStatus(s, status, o)
    ensures Stored(s, t, status) && t.phase == Idle && t.lost == s.lost && CurrentRun(s.cloud) == Some(s.phase.run)
    ensures t.cloud == SetRun(s.cloud, s.phase.run, s.cloud.runs[s.phase.run].(recorded := true))
    ensures !IsPending(s.mem.status.runStatus) && s.cloud.runs[s.phase.run].kind.Apply? &&
            !s.cloud.runs[s.phase.run].recorded
    ensures MayBecome(status.runStatus, s.cloud.runs[s.phase.run].status)
    ensures s.live == Some(s.mem) && status == s.mem.status.(run := Some(s.phase.run), runStatus := status.runStatus)
  {
  }

  lemma RunRecorded(s: Sys, t: Sys, status: Status)
    requires s.phase.RecordingRun? && Inv(s) &&
             status == s.mem.status.(run := Some(s.phase.run), runStatus := status.runStatus)
    requires Stored(s, t, status) && t.phase == Idle && t.lost == s.lost && CurrentRun(s.cloud) == Some(s.phase.run)
    requires t.cloud == SetRun(s.cloud, s.phase.run, s.cloud.runs[s.phase.run].(recorded := true))
    requires !IsPending(s.mem.status.runStatus) && s.cloud.runs[s.phase.run].kind.Apply? &&
             !s.cloud.runs[s.phase.run].recorded
    requires MayBecome(status.runStatus, s.cloud.runs[s.phase.run].status) && s.live == Some(s.mem)
    ensures Inv(t)
  {
    LastRecorded(s.cloud.runs);
    NewRunTracks(s.mem.status, s.cloud.runs, t.cloud.runs, status);
    RecordedRuns(s, t);
    RecordedObject(s, t, status);
  }

  lemma RecordedObject(s: Sys, t: Sys, status: Status)
    requires ObjectInv(s) && VersionInv(s) && s.phase.RecordingRun? && CurrentRun(s.cloud) == Some(s.phase.run)
    requires status == s.mem.status.(run := Some(s.phase.run), runStatus := status.runStatus)
    requires Stored(s, t, status) && t.phase == Idle
    requires t.cloud == SetRun(s.cloud, s.phase.run, s.cloud.runs[s.phase.run].(recorded := true))
    ensures CopyInv(t) && ObjectInv(t) && VersionInv(t) && PhaseInv(t)
  {
  }

  /** Nothing was pending, so the new run is the only one to track. */
  lemma NewRunTracks(st: Status, a: seq<Run>, b: seq<Run>, status: Status)
    requires Tracks(st, a) && !IsPending(st.runStatus) && a != []
    requires b == a[|a| - 1 := a[|a| - 1].(recorded := true)]
    requires status.run == Some(|a| - 1) && MayBecome(status.runStatus, a[|a| - 1].status)
    ensures Tracks(status, b)
  {
    assert MayBecome(status.runStatus, b[|a| - 1].status);
  }

  lemma RecordedRuns(s: Sys, t: Sys)
    requires s.phase.RecordingRun? && RunInv(s) && CurrentRun(s.cloud) == Some(s.phase.run) && s.live == Some(s.mem)
    requires !IsPending(s.mem.status.runStatus) && s.cloud.runs[s.phase.run].kind.Apply?
    requires t.cloud.runs == s.cloud.runs[s.phase.run := s.cloud.runs[s.phase.run].(recorded := true)]
    requires t.phase == Idle && t.lost == s.lost && Unrecorded(t.cloud.runs) == Unrecorded(s.cloud.runs) - 1
    requires t.live.Some? && Tracks(t.live.value.status, t.cloud.runs)
    ensures RunInv(t)
  {
  }

  lemma LastRecorded(runs: seq<Run>)
    requires runs != [] && runs[|runs| - 1].kind.Apply? && !runs[|runs| - 1].recorded
    ensures Unrecorded(runs[|runs| - 1 := runs[|runs| - 1].(recorded := true)]) == Unrecorded(runs) - 1
  {
    assert runs[|runs| - 1 := runs[|runs| - 1].(recorded := true)][..|runs| - 1] == runs[..|runs| - 1];
  }

  /****** The other writes ******/

  lemma RemovedFinalizer(list: seq<string>)
    requires AtMostOnce(list, FINALIZER)
    ensures FINALIZER !in Finalizers.Left(list, FINALIZER) && AtMostOnce(Finalizers.Left(list, FINALIZER), FINALIZER)
  {
    Finalizers.RemovesSingle(list, FINALIZER);
  }

  lemma WriteFinalizersKeeps(s: Sys, finalizers: seq<string>, o: Outcome)
    requires NextFinalizers(s) == Some(finalizers) && Inv(s)
    ensures Inv(AfterWriteFinalizers(s, finalizers, o))
  {
    var t := AfterWriteFinalizers(s, finalizers, o);
    FinalizersFit(s, finalizers);
    FinalizersWritten(s, finalizers, o);
    if Persists(s, o) {
      ObjectReplaced(s, t);
    } else {
      MovesKeep(s, t);
    }
  }

  lemma FinalizersWritten(s: Sys, finalizers: seq<string>, o: Outcome)
    requires NextFinalizers(s) == Some(finalizers)
    ensures var t := AfterWriteFinalizers(s, finalizers, o);
            && SameRecords(s, t) && SameKind(s, t) && PhaseInv(t) && s.phase != Idle
            && !s.phase.RecordingRun? && !t.phase.RecordingRun?
            && (Persists(s, o) ==>
                  && t.mem == s.mem.(finalizers := finalizers, revision := s.mem.revision + 1) && t.live == Kept(t.mem))
            && (!Persists(s, o) ==> SameObject(s, t))
  {
  }

  lemma FinalizersFit(s: Sys, finalizers: seq<string>)
    requires NextFinalizers(s) == Some(finalizers) && PhaseInv(s) && SoundObject(s.mem, s.cloud)
    ensures SoundObject(s.mem.(finalizers := finalizers), s.cloud)
  {
    if s.phase.RemovingFinalizer? {
      RemovedFinalizer(s.mem.finalizers);
    }
  }

  /** The object was written with other finalizers, and perhaps it is gone with the last one. */
  lemma ObjectReplaced(s: Sys, t: Sys)
    requires Inv(s) && s.phase != Idle && Fresh(s) && SameRecords(s, t) && SameKind(s, t) && PhaseInv(t)
    requires t.mem == s.mem.(finalizers := t.mem.finalizers, revision := s.mem.revision + 1) && t.live == Kept(t.mem)
    requires SoundObject(t.mem, s.cloud) && !t.phase.RecordingRun? && !s.phase.RecordingRun?
    ensures Inv(t)
  {
  }

  lemma FetchKeeps(s: Sys, o: Outcome)
    requires s.phase == Idle && Inv(s)
    ensures Inv(AfterFetch(s, o))
  {
    var t := AfterFetch(s, o);
    if t.phase == Idle {
      MovesKeep(s, t);
    } else {
      ObjectFetched(s, t);
    }
  }

  lemma ObjectFetched(s: Sys, t: Sys)
    requires Inv(s) && s.phase == Idle && s.live.Some?
    requires t == s.(mem := s.live.value, phase := if s.live.value.deleting then CheckingExistence
             else ReadingWorkspace)
    ensures Inv(t)
  {
  }

  /****** The users ******/

  lemma EditKeeps(s: Sys, spec: Spec, before: seq<string>, after: seq<string>)
    requires At(s, Edit(spec, before, after)) && Inv(s)
    ensures Inv(AfterEdit(s, spec, before, after))
  {
    var t := AfterEdit(s, spec, before, after);
    if t.live.Some? {
      EditFits(s.live.value, t.live, s.cloud, spec, before, after);
    }
    ObjectEdited(s, t);
  }

  lemma EditFits(obj: Object, edited: Option<Object>, c: Cloud, spec: Spec, before: seq<string>, after: seq<string>)
    requires SoundObject(obj, c) && FINALIZER !in before && FINALIZER !in after && edited.Some?
    requires edited.value == obj.(spec := spec, revision := obj.revision + 1,
                                  finalizers := before + (if FINALIZER in obj.finalizers then [FINALIZER] else []) +
                                                after)
    ensures SoundObject(edited.value, c)
  {
  }

  lemma MarkKeeps(s: Sys)
    requires At(s, Mark) && Inv(s)
    ensures Inv(AfterMark(s))
  {
    ObjectEdited(s, AfterMark(s));
  }

  /** The object got a new revision with the same status; a mark stays. */
  lemma ObjectEdited(s: Sys, t: Sys)
    requires Inv(s) && s.live.Some? && t == s.(live := t.live)
    requires t.live.Some? ==>
               && t.live.value.status == s.live.value.status && t.live.value.revision == s.live.value.revision + 1
               && (s.live.value.deleting ==> t.live.value.deleting) && SoundObject(t.live.value, s.cloud)
    ensures Inv(t)
  {
  }
}

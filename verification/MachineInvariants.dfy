/**
 What holds in every state that the operator, crashes, the server and the users can bring about together.
 `Inv` collects it; the other modules show that every step keeps it and what follows from it.
 */
module MachineInvariants {
  import opened Options
  import opened Runs
  import opened Machine

  predicate InDeletion(p: Phase) {
    || p.CheckingExistence? || p.CheckingAgain? || p.ListingRuns? || p.Cancelling? || p.ReadingCurrentRun?
    || p.CreatingDestroyRun? || p.Polling? || p.DeletingWorkspace? || p.RemovingFinalizer?
  }

  /** The call has found that no run is under way. */
  predicate PastRun(p: Phase) {
    || p.ReadingState? || p.StoringOutputs? || p.PublishingSecret? || p.Templating? || p.SyncingVariables?
    || p.SyncingTriggers? || StartingRun(p)
  }

  predicate StartingRun(p: Phase) {
    || p.ListingVersions? || p.CreatingVersion? || p.Uploading? || p.StoringVersion? || p.ReadingVersion?
    || p.ClearingVersion? || p.CreatingRun? || p.RecordingRun?
  }

  /****** The copy in memory ******/

  /** Between reading the object and the end of the call, the copy has the current status, is the object
      itself if it is the newest revision, and the call is a deletion if the copy is marked. */
  predicate CopyInv(s: Sys) {
    s.phase != Idle ==>
      && (InDeletion(s.phase) <==> s.mem.deleting)
      && (s.live.Some? ==>
            && s.live.value.status == s.mem.status && s.mem.revision <= s.live.value.revision
            && (s.mem.deleting ==> s.live.value.deleting)
            && (Fresh(s) ==> s.live.value == s.mem))
  }

  /****** Finalizers and identifiers ******/

  predicate AtMostOnce(list: seq<string>, x: string) {
    forall i, j :: 0 <= i < |list| && 0 <= j < |list| && list[i] == x && list[j] == x ==> i == j
  }

  /** Identifiers in the status were handed out by the server, and the finalizer stands for a workspace. */
  predicate SoundObject(obj: Object, c: Cloud) {
    && AtMostOnce(obj.finalizers, FINALIZER)
    && (FINALIZER in obj.finalizers ==> obj.status.workspace.Some?)
    && (obj.status.workspace.Some? ==> obj.status.workspace.value < c.issued)
    && (obj.status.run.Some? ==> obj.status.run.value < |c.runs|)
    && (obj.status.version.Some? ==> obj.status.version.value < |c.versions|)
  }

  predicate ObjectInv(s: Sys) {
    && (s.cloud.workspace.Some? ==> s.cloud.workspace.value < s.cloud.issued)
    && (s.live.Some? ==> SoundObject(s.live.value, s.cloud))
    && (s.phase != Idle ==> SoundObject(s.mem, s.cloud))
  }

  /****** Runs ******/

  /** No run is under way. */
  predicate Ended(runs: seq<Run>) { forall i :: 0 <= i < |runs| ==> !IsPending(runs[i].status) }

  /** Some run up to `last` was once in this status; it is `last` itself unless the status is final. */
  predicate Observed(status: RunStatus, runs: seq<Run>, last: nat) {
    exists i :: 0 <= i <= last && i < |runs| && MayBecome(status, runs[i].status) && (i == last || !IsPending(status))
  }

  /** The status accounts for every run that it ever took note of. */
  predicate Tracks(st: Status, runs: seq<Run>) {
    && (st.run.None? ==> st.runStatus == NoStatus)
    && (st.run.Some? ==> Observed(st.runStatus, runs, st.run.value))
    && (forall i :: 0 <= i < |runs| && runs[i].recorded && IsPending(runs[i].status) ==>
          st.run == Some(i) && IsPending(st.runStatus))
    && (IsPending(st.runStatus) ==>
          st.run.Some? && forall i :: st.run.value < i < |runs| ==> runs[i].kind.Destroy?)
  }

  /** The number of apply runs that never reached the status. */
  function Unrecorded(runs: seq<Run>): nat {
    if runs == [] then 0
    else
      var last := runs[|runs| - 1];
      Unrecorded(runs[..|runs| - 1]) + if last.kind.Apply? && !last.recorded then 1 else 0
  }

  /** The object is gone or on its way out, and no other call is under way. */
  predicate Doomed(s: Sys) {
    && (s.live.Some? ==> s.live.value.deleting)
    && (s.phase == Idle || InDeletion(s.phase))
  }

  /** Of the runs that the status took note of, at most one is under way. */
  predicate OneRecordedActive(runs: seq<Run>) {
    forall i, j :: 0 <= i < j < |runs| ==>
      !(runs[i].recorded && IsPending(runs[i].status) && runs[j].recorded && IsPending(runs[j].status))
  }

  predicate RunInv(s: Sys) {
    && (forall i :: 0 <= i < |s.cloud.runs| ==> s.cloud.runs[i].status != NoStatus)
    && (forall i :: 0 <= i < |s.cloud.runs| && s.cloud.runs[i].kind.Destroy? ==> Doomed(s) && !s.cloud.runs[i].recorded)
    && OneRecordedActive(s.cloud.runs)
    && (s.live.Some? ==> Tracks(s.live.value.status, s.cloud.runs))
    && (s.phase != Idle ==> Tracks(s.mem.status, s.cloud.runs))
    && Unrecorded(s.cloud.runs) == s.lost + (if s.phase.RecordingRun? then 1 else 0)
  }

  /****** Configuration versions ******/

  /** No run was made from this version. */
  predicate Unused(v: nat, runs: seq<Run>) { forall i :: 0 <= i < |runs| ==> runs[i].kind != Apply(Some(v)) }

  predicate HeldVersion(st: Status, c: Cloud) {
    st.version.Some? ==>
      st.version.value < |c.versions| && c.versions[st.version.value].stored && Unused(st.version.value, c.runs)
  }

  predicate VersionInv(s: Sys) {
    && (forall i :: 0 <= i < |s.cloud.runs| && s.cloud.runs[i].kind.Apply? && s.cloud.runs[i].kind.version.Some? ==>
          var v := s.cloud.runs[i].kind.version.value;
          v < |s.cloud.versions| && s.cloud.versions[v].stored && s.cloud.versions[v].seen)
    && (forall i, j ::
          0 <= i < j < |s.cloud.runs| && s.cloud.runs[i].kind.Apply? && s.cloud.runs[i].kind.version.Some? ==>
          s.cloud.runs[i].kind != s.cloud.runs[j].kind)
    && (forall v :: 0 <= v < |s.cloud.versions| && s.cloud.versions[v].seen ==> s.cloud.versions[v].status == Uploaded)
    && (s.live.Some? ==> HeldVersion(s.live.value.status, s.cloud))
    && (s.phase != Idle ==> HeldVersion(s.mem.status, s.cloud))
  }

  /****** Deletion ******/

  /** Every run that was listed has ended or was force-cancelled, except those still to be cancelled;
      runs that came later are for destruction. */
  predicate Stopped(runs: seq<Run>, listed: nat, todo: seq<nat>) {
    && listed <= |runs|
    && (forall i :: 0 <= i < listed && IsPending(runs[i].status) ==> runs[i].cancelled || i in todo)
    && (forall i :: listed <= i < |runs| ==> runs[i].kind.Destroy?)
    && forall i :: i in todo ==> i < listed
  }

  /** The destroy run has come to a good end; there is none only if there was nothing to destroy. */
  predicate Destroyed(runs: seq<Run>, listed: nat, destroyed: Option<nat>) {
    match destroyed
    case None => runs == []
    case Some(r) => listed <= r < |runs| && !IsPending(runs[r].status) && !IsError(runs[r].status)
  }

  predicate Present(s: Sys) { s.mem.status.workspace.Some? && s.cloud.workspace == s.mem.status.workspace }

  predicate Justified(s: Sys, reason: Reason) {
    match reason
    case Absent => s.mem.status.workspace.Some? && s.cloud.workspace != s.mem.status.workspace
    case Unsure => true
    case NotOurs => FINALIZER !in s.mem.finalizers
    case TornDown(listed, destroyed) => Stopped(s.cloud.runs, listed, []) && Destroyed(s.cloud.runs, listed, destroyed)
  }

  /****** What the operator knows at the point that it has come to ******/

  predicate PhaseInv(s: Sys) {
    if InDeletion(s.phase) then DeletionPhase(s)
    else if StartingRun(s.phase) then !IsPending(s.mem.status.runStatus) && StartPhase(s)
    else if PastRun(s.phase) then !IsPending(s.mem.status.runStatus)
    else SetupPhase(s)
  }

  predicate DeletionPhase(s: Sys) {
    var p, runs := s.phase, s.cloud.runs;
    if p == CheckingExistence then true
    else if p == CheckingAgain then s.mem.status.workspace.Some?
    else if p.RemovingFinalizer? then Justified(s, p.reason)
    else
      && Present(s)
      && (p.Cancelling? ==> Stopped(runs, p.listed, p.todo))
      && (p.ReadingCurrentRun? || p.CreatingDestroyRun? ==> Stopped(runs, p.listed, []))
      && (p.Polling? ==> Stopped(runs, p.listed, []) && p.listed <= p.run < |runs|)
      && (p.DeletingWorkspace? ==> Stopped(runs, p.listed, []) && Destroyed(runs, p.listed, p.destroyed))
  }

  predicate SetupPhase(s: Sys) {
    var p, st := s.phase, s.mem.status;
    && (p.StoringWorkspace? ==> p.id < s.cloud.issued && (p.current.Some? ==> p.current == CurrentRun(s.cloud)))
    && (p.AdoptingRun? ==> st.workspace.Some? && CurrentRun(s.cloud) == Some(p.latest) && st.run.Some?)
    && (p.AddingFinalizer? ==> st.workspace.Some? && FINALIZER !in s.mem.finalizers)
    && (p.ReadingRun? || p.StoringRunStatus? ==> IsPending(st.runStatus))
    && (p.StoringRunStatus? && st.run.Some? ==>
          st.run.value < |s.cloud.runs| && MayBecome(p.status, s.cloud.runs[st.run.value].status))
  }

  predicate StartPhase(s: Sys) {
    var p, held, c := s.phase, s.mem.status.version, s.cloud;
    && (p.CreatingVersion? ==> held.None?)
    && (p.Uploading? || p.StoringVersion? ==> held.None? && p.version < |c.versions| && !c.versions[p.version].stored)
    && (p.ReadingVersion? ==> held.Some?)
    && (p.ClearingVersion? ==> held.Some? && held.value < |c.versions| && c.versions[held.value].seen)
    && (p.CreatingRun? && p.cleared.Some? ==> held.None? && Ready(p.cleared.value, c))
    && (p.RecordingRun? ==>
          && CurrentRun(c) == Some(p.run) && c.runs[p.run].kind.Apply? && !c.runs[p.run].recorded
          && MayBecome(p.status, c.runs[p.run].status))
  }

  /** The version was stored, seen uploaded, and made no run yet. */
  predicate Ready(v: nat, c: Cloud) {
    v < |c.versions| && c.versions[v].stored && c.versions[v].seen && Unused(v, c.runs)
  }

  predicate Inv(s: Sys) { CopyInv(s) && ObjectInv(s) && RunInv(s) && VersionInv(s) && PhaseInv(s) }

  /****** Steps that leave the object and the records as they are ******/

  predicate SameObject(s: Sys, t: Sys) { t.live == s.live && t.mem == s.mem }

  /** The call goes on as what it is, or ends. */
  predicate SameKind(s: Sys, t: Sys) {
    t.phase == Idle || (s.phase != Idle && (InDeletion(t.phase) <==> InDeletion(s.phase)))
  }

  predicate SameRecords(s: Sys, t: Sys) {
    && t.cloud.workspace == s.cloud.workspace && t.cloud.issued == s.cloud.issued
    && t.cloud.runs == s.cloud.runs && t.cloud.versions == s.cloud.versions && t.lost == s.lost
  }

  predicate Moves(s: Sys, t: Sys) {
    SameObject(s, t) && SameRecords(s, t) && SameKind(s, t) && !s.phase.RecordingRun? && !t.phase.RecordingRun?
  }

  lemma CopyFrame(s: Sys, t: Sys)
    requires CopyInv(s) && SameObject(s, t) && SameKind(s, t)
    ensures CopyInv(t)
  {
  }

  lemma ObjectFrame(s: Sys, t: Sys)
    requires ObjectInv(s) && SameObject(s, t) && SameKind(s, t)
    requires t.cloud.workspace.Some? ==> t.cloud.workspace.value < t.cloud.issued
    requires s.cloud.issued <= t.cloud.issued && |s.cloud.runs| <= |t.cloud.runs| &&
             |s.cloud.versions| <= |t.cloud.versions|
    ensures ObjectInv(t)
  {
  }

  lemma RunFrame(s: Sys, t: Sys)
    requires RunInv(s) && SameObject(s, t) && SameKind(s, t) && t.cloud.runs == s.cloud.runs && t.lost == s.lost
    requires s.phase.RecordingRun? <==> t.phase.RecordingRun?
    ensures RunInv(t)
  {
  }

  lemma VersionFrame(s: Sys, t: Sys)
    requires VersionInv(s) && SameObject(s, t) && SameKind(s, t)
    requires t.cloud.runs == s.cloud.runs && t.cloud.versions == s.cloud.versions
    ensures VersionInv(t)
  {
  }

  lemma MovesKeep(s: Sys, t: Sys)
    requires Inv(s) && Moves(s, t) && PhaseInv(t)
    ensures Inv(t)
  {
    CopyFrame(s, t);
    ObjectFrame(s, t);
    RunFrame(s, t);
    VersionFrame(s, t);
  }
}

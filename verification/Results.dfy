/** With what result a call of Reconcile ends, whatever fails (workspacehelper/workspace_helper.go). */
module Results {
  import opened Options
  import opened Outcomes
  import opened Runs
  import opened Machine
  import opened MachineInvariants
  import opened Safety

  /** The call to the API went through, as far as the operator can tell; a write also has to meet the newest
      revision. */
  predicate WentThrough(s: Sys, l: Label)
    requires OperatorCall(l)
  {
    if l.Notify? || l.SyncVariables? || l.SyncTriggers? then l.ok
    else if l.WriteStatus? || l.WriteFinalizers? then Succeeds(s, l.o)
    else l.o.Done?
  }

  /** The two calls whose failure does not end the call of Reconcile. */
  predicate PassedOver(l: Label) { l.CheckAgain? || l.DeleteWorkspace? }

  /** What else is taken for an error: a deletion before the workspace is on record, a destroy run that failed, and a
      spec with neither a module nor a repository. */
  predicate Refuses(s: Sys, l: Label) {
    || (l.CheckExistence? && s.mem.status.workspace.None?)
    || (l.Poll? && s.phase.Polling? && s.phase.run < |s.cloud.runs| && IsError(s.cloud.runs[s.phase.run].status))
    || ((l.PutSecret? || (l.Notify? && IsError(s.mem.status.runStatus))) && !s.mem.spec.vcs && s.mem.spec.mod.None?)
  }

  predicate Fails(s: Sys, l: Label)
    requires OperatorCall(l)
  {
    (!WentThrough(s, l) && !PassedOver(l)) || Refuses(s, l)
  }

  /** There is nothing left to do: the object is gone, or its finalizer is. */
  predicate Finishes(s: Sys, l: Label) {
    || (l.Fetch? && l.o.Done? && s.live.None?)
    || (l.WriteFinalizers? && s.phase.RemovingFinalizer? && Succeeds(s, l.o))
  }

  /** There is something to wait for. */
  predicate Waits(s: Sys, l: Label) {
    || (l.WriteStatus? && (s.phase.StoringRunStatus? || s.phase.RecordingRun?) && Succeeds(s, l.o))
    || (l.ReadRun? && l.o.Done? && s.mem.status.run.Some? && s.mem.status.run.value < |s.cloud.runs| &&
        s.cloud.runs[s.mem.status.run.value].status == s.mem.status.runStatus)
    || (l.ListVersions? && l.o.Done? && !s.cloud.repository)
    || (l.ReadVersion? && l.o.Done? && s.mem.status.version.Some? && s.mem.status.version.value < |s.cloud.versions| &&
        s.cloud.versions[s.mem.status.version.value].status != Uploaded)
  }

  predicate EndsAs(t: Sys, r: Result) { t.phase == Idle && t.returned == r }

  predicate EndsRightly(s: Sys, l: Label, t: Sys)
    requires OperatorCall(l)
  {
    && (EndsAs(t, Error) <==> Fails(s, l)) && (EndsAs(t, Nothing) <==> Finishes(s, l))
    && (EndsAs(t, Requeue) <==> Waits(s, l))
  }

  /** What the operator is about to use is there. */
  predicate InBounds(s: Sys) {
    && (s.phase.Cancelling? && s.phase.todo != [] ==> s.phase.todo[0] < |s.cloud.runs|)
    && (s.phase.ReadingCurrentRun? ==> s.cloud.workspace == s.mem.status.workspace)
    && (s.phase.Polling? ==> s.phase.run < |s.cloud.runs|)
    && (s.phase.ReadingRun? ==> s.mem.status.run.Some? && s.mem.status.run.value < |s.cloud.runs|)
    && (s.phase.Uploading? ==> s.phase.version < |s.cloud.versions|)
    && (s.phase.ReadingVersion? ==> s.mem.status.version.Some? && s.mem.status.version.value < |s.cloud.versions|)
  }

  lemma SafeBounds(s: Sys)
    requires Inv(s)
    ensures InBounds(s)
  {
    if s.phase.Cancelling? && s.phase.todo != [] { assert s.phase.todo[0] in s.phase.todo; }
  }

  lemma DeletionEndsRightly(s: Sys, l: Label)
    requires DeletionCall(l) && AtDeletionCall(s, l) && InBounds(s)
    ensures EndsRightly(s, l, DeletionStep(s, l))
  {
  }

  lemma SetupEndsRightly(s: Sys, l: Label)
    requires SetupCall(l) && AtSetupCall(s, l) && InBounds(s)
    ensures EndsRightly(s, l, SetupStep(s, l))
  {
  }

  lemma SyncEndsRightly(s: Sys, l: Label)
    requires SyncCall(l) && AtSyncCall(s, l) && (l.SyncVariables? && l.ok ==> Wanted(s).Some?)
    ensures EndsRightly(s, l, SyncStep(s, l))
  {
  }

  lemma RunCallEndsRightly(s: Sys, l: Label)
    requires RunCall(l) && AtRunCall(s, l) && InBounds(s)
    ensures EndsRightly(s, l, RunStep(s, l))
  {
  }

  lemma ObjectCallEndsRightly(s: Sys, l: Label)
    requires ObjectCall(l) && AtObjectCall(s, l)
    ensures EndsRightly(s, l, ObjectStep(s, l))
  {
  }

  lemma CallEndsRightly(s: Sys, l: Label)
    requires Enabled(s, l) && OperatorCall(l) && InBounds(s)
    ensures EndsRightly(s, l, Step(s, l))
  {
    if DeletionCall(l) { DeletionEndsRightly(s, l); }
    else if SetupCall(l) { SetupEndsRightly(s, l); }
    else if SyncCall(l) { SyncEndsRightly(s, l); }
    else if RunCall(l) { RunCallEndsRightly(s, l); }
    else { ObjectCallEndsRightly(s, l); }
  }

  /** A call of Reconcile ends with an error exactly if an API call did not go through that is not passed over, or the
      operator refuses to go on; with nothing more to do exactly if the object or its finalizer is gone; and with the
      request to be repeated exactly if it has news of a run, or waits for a run, a version or a repository. */
  lemma ResultsAreExact(states: seq<Sys>, labels: seq<Label>, n: nat)
    requires IsRun(states, labels) && Init(states[0]) && n < |labels| && OperatorCall(labels[n])
    ensures EndsAs(states[n + 1], Error) <==> Fails(states[n], labels[n])
    ensures EndsAs(states[n + 1], Nothing) <==> Finishes(states[n], labels[n])
    ensures EndsAs(states[n + 1], Requeue) <==> Waits(states[n], labels[n])
  {
    InitIsSafe(states[0]);
    RunIsSafe(states, labels, n);
    SafeBounds(states[n]);
    assert StepAt(states, labels, n);
    CallEndsRightly(states[n], labels[n]);
  }
}

/** The steps of the operator that change neither the object nor the records of runs and versions keep the invariant. */
module MachineMoves {
  import opened Options
  import opened Outcomes
  import opened Machine
  import opened MachineInvariants
  import Notifications
  import Outputs
  import RunTriggers
  import Variables

  /****** Deletion ******/

  lemma CheckMoves(s: Sys, o: Outcome)
    requires s.phase == CheckingExistence
    ensures Moves(s, AfterCheck(s, o)) && PhaseInv(AfterCheck(s, o))
  {
  }

  lemma SecondCheckMoves(s: Sys, o: Outcome)
    requires s.phase == CheckingAgain && PhaseInv(s)
    ensures Moves(s, AfterSecondCheck(s, o)) && PhaseInv(AfterSecondCheck(s, o))
  {
  }

  lemma ListRunsMoves(s: Sys, o: Outcome)
    requires s.phase == ListingRuns && PhaseInv(s)
    ensures Moves(s, AfterListRuns(s, o)) && PhaseInv(AfterListRuns(s, o))
  {
    assert Stopped(s.cloud.runs, |s.cloud.runs|, PendingRuns(s.cloud.runs));
  }

  lemma ReadCurrentRunMoves(s: Sys, o: Outcome)
    requires s.phase.ReadingCurrentRun? && PhaseInv(s)
    ensures Moves(s, AfterReadCurrentRun(s, o)) && PhaseInv(AfterReadCurrentRun(s, o))
  {
  }

  lemma PollMoves(s: Sys, o: Outcome)
    requires s.phase.Polling? && PhaseInv(s)
    ensures Moves(s, AfterPoll(s, o)) && PhaseInv(AfterPoll(s, o))
  {
  }

  /****** From the workspace to the Secret ******/

  lemma ReadWorkspaceMoves(s: Sys, o: Outcome)
    requires s.phase == ReadingWorkspace && ObjectInv(s)
    ensures Moves(s, AfterReadWorkspace(s, o)) && PhaseInv(AfterReadWorkspace(s, o))
  {
  }

  lemma NotifyMoves(s: Sys, calls: seq<Notifications.Call>, ok: bool)
    requires s.phase == Notifying
    ensures Moves(s, AfterNotify(s, calls, ok)) && PhaseInv(AfterNotify(s, calls, ok))
  {
  }

  lemma ReadRunMoves(s: Sys, o: Outcome)
    requires s.phase == ReadingRun && PhaseInv(s) && RunInv(s)
    ensures Moves(s, AfterReadRun(s, o)) && PhaseInv(AfterReadRun(s, o))
  {
  }

  lemma ReadStateMoves(s: Sys, outputs: seq<Outputs.OutputStatus>, o: Outcome)
    requires s.phase == ReadingState && PhaseInv(s)
    ensures Moves(s, AfterReadState(s, outputs, o)) && PhaseInv(AfterReadState(s, outputs, o))
  {
  }

  lemma PutSecretMoves(s: Sys, o: Outcome)
    requires s.phase == PublishingSecret && PhaseInv(s)
    ensures Moves(s, AfterPutSecret(s, o)) && PhaseInv(AfterPutSecret(s, o))
  {
  }

  /****** What the spec needs ******/

  lemma PutConfigMoves(s: Sys, o: Outcome)
    requires s.phase == Templating && PhaseInv(s)
    ensures Moves(s, AfterPutConfig(s, o)) && PhaseInv(AfterPutConfig(s, o))
  {
  }

  lemma SyncVariablesMoves(s: Sys, shown: seq<Variables.Listed>, changes: seq<Variables.Call>, ok: bool)
    requires s.phase.SyncingVariables? && PhaseInv(s)
    ensures Moves(s, AfterSyncVariables(s, shown, changes, ok)) && PhaseInv(AfterSyncVariables(s, shown, changes, ok))
  {
  }

  lemma SyncTriggersMoves(s: Sys, inbound: seq<RunTriggers.Listed>, edits: seq<RunTriggers.Call>, ok: bool)
    requires s.phase.SyncingTriggers? && PhaseInv(s)
    ensures Moves(s, AfterSyncTriggers(s, inbound, edits, ok)) && PhaseInv(AfterSyncTriggers(s, inbound, edits, ok))
  {
  }

  lemma ListVersionsMoves(s: Sys, o: Outcome)
    requires s.phase == ListingVersions && PhaseInv(s)
    ensures Moves(s, AfterListVersions(s, o)) && PhaseInv(AfterListVersions(s, o))
  {
  }

  /****** So they keep the invariant ******/

  lemma CheckKeeps(s: Sys, o: Outcome)
    requires s.phase == CheckingExistence && Inv(s)
    ensures Inv(AfterCheck(s, o))
  {
    CheckMoves(s, o);
    MovesKeep(s, AfterCheck(s, o));
  }

  lemma SecondCheckKeeps(s: Sys, o: Outcome)
    requires s.phase == CheckingAgain && Inv(s)
    ensures Inv(AfterSecondCheck(s, o))
  {
    SecondCheckMoves(s, o);
    MovesKeep(s, AfterSecondCheck(s, o));
  }

  lemma ListRunsKeeps(s: Sys, o: Outcome)
    requires s.phase == ListingRuns && Inv(s)
    ensures Inv(AfterListRuns(s, o))
  {
    ListRunsMoves(s, o);
    MovesKeep(s, AfterListRuns(s, o));
  }

  lemma ReadCurrentRunKeeps(s: Sys, o: Outcome)
    requires s.phase.ReadingCurrentRun? && Inv(s)
    ensures Inv(AfterReadCurrentRun(s, o))
  {
    ReadCurrentRunMoves(s, o);
    MovesKeep(s, AfterReadCurrentRun(s, o));
  }

  lemma PollKeeps(s: Sys, o: Outcome)
    requires s.phase.Polling? && Inv(s)
    ensures Inv(AfterPoll(s, o))
  {
    PollMoves(s, o);
    MovesKeep(s, AfterPoll(s, o));
  }

  lemma ReadWorkspaceKeeps(s: Sys, o: Outcome)
    requires s.phase == ReadingWorkspace && Inv(s)
    ensures Inv(AfterReadWorkspace(s, o))
  {
    ReadWorkspaceMoves(s, o);
    MovesKeep(s, AfterReadWorkspace(s, o));
  }

  lemma NotifyKeeps(s: Sys, calls: seq<Notifications.Call>, ok: bool)
    requires s.phase == Notifying && Inv(s)
    ensures Inv(AfterNotify(s, calls, ok))
  {
    NotifyMoves(s, calls, ok);
    MovesKeep(s, AfterNotify(s, calls, ok));
  }

  lemma ReadRunKeeps(s: Sys, o: Outcome)
    requires s.phase == ReadingRun && Inv(s)
    ensures Inv(AfterReadRun(s, o))
  {
    ReadRunMoves(s, o);
    MovesKeep(s, AfterReadRun(s, o));
  }

  lemma ReadStateKeeps(s: Sys, outputs: seq<Outputs.OutputStatus>, o: Outcome)
    requires s.phase == ReadingState && Inv(s)
    ensures Inv(AfterReadState(s, outputs, o))
  {
    ReadStateMoves(s, outputs, o);
    MovesKeep(s, AfterReadState(s, outputs, o));
  }

  lemma PutSecretKeeps(s: Sys, o: Outcome)
    requires s.phase == PublishingSecret && Inv(s)
    ensures Inv(AfterPutSecret(s, o))
  {
    PutSecretMoves(s, o);
    MovesKeep(s, AfterPutSecret(s, o));
  }

  lemma PutConfigKeeps(s: Sys, o: Outcome)
    requires s.phase == Templating && Inv(s)
    ensures Inv(AfterPutConfig(s, o))
  {
    PutConfigMoves(s, o);
    MovesKeep(s, AfterPutConfig(s, o));
  }

  lemma SyncVariablesKeeps(s: Sys, shown: seq<Variables.Listed>, changes: seq<Variables.Call>, ok: bool)
    requires s.phase.SyncingVariables? && Inv(s)
    ensures Inv(AfterSyncVariables(s, shown, changes, ok))
  {
    SyncVariablesMoves(s, shown, changes, ok);
    MovesKeep(s, AfterSyncVariables(s, shown, changes, ok));
  }

  lemma SyncTriggersKeeps(s: Sys, inbound: seq<RunTriggers.Listed>, edits: seq<RunTriggers.Call>, ok: bool)
    requires s.phase.SyncingTriggers? && Inv(s)
    ensures Inv(AfterSyncTriggers(s, inbound, edits, ok))
  {
    SyncTriggersMoves(s, inbound, edits, ok);
    MovesKeep(s, AfterSyncTriggers(s, inbound, edits, ok));
  }

  lemma ListVersionsKeeps(s: Sys, o: Outcome)
    requires s.phase == ListingVersions && Inv(s)
    ensures Inv(AfterListVersions(s, o))
  {
    ListVersionsMoves(s, o);
    MovesKeep(s, AfterListVersions(s, o));
  }
}

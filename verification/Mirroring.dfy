/** What a call of Reconcile has brought into step with the spec by the time that it comes to each point. */
module Mirroring {
  import opened Options
  import opened Outcomes
  import opened Runs
  import opened Machine
  import opened MachineInvariants
  import opened Safety
  import Notifications
  import Outputs
  import RunTriggers
  import Variables

  /****** What is in step ******/

  predicate Syncing(p: Phase) { p.Templating? || p.SyncingVariables? || p.SyncingTriggers? }

  predicate Notified(p: Phase) {
    || p.ReadingRun? || p.StoringRunStatus? || p.ReadingState? || p.StoringOutputs? || p.PublishingSecret? || Syncing(p)
  }

  predicate NotificationsInStep(s: Sys) {
    Notifications.DistinctNames(s.mem.spec.notifications) ==>
      Notifications.Mirrors(s.mem.spec.notifications, s.cloud.held.notifications)
  }

  /** The Secret holds the outputs of the status; an errored run leaves both alone. */
  predicate Published(s: Sys) {
    IsError(s.mem.status.runStatus) || s.cluster.secret == Some(Outputs.OutputsToMap(s.mem.status.outputs))
  }

  predicate Templated(s: Sys) { !s.mem.spec.vcs ==> Text(s).Some? && s.cluster.config == Text(s) }

  predicate VariablesInStep(s: Sys) {
    && Wanted(s).Some?
    && (Variables.DistinctSettings(Wanted(s).value) ==> Variables.Mirrors(Wanted(s).value, s.cloud.held.variables))
  }

  predicate TriggersInStep(s: Sys) { RunTriggers.Mirrors(s.mem.spec.runTriggers, s.cloud.held.triggers) }

  ghost predicate MirrorInv(s: Sys) {
    && Collected(s.cloud.held)
    && (Notified(s.phase) ==> NotificationsInStep(s))
    && (Syncing(s.phase) ==> Published(s))
    && (s.phase.Templating? ==> Text(s).Some?)
    && (s.phase.SyncingVariables? || s.phase.SyncingTriggers? ==> Templated(s))
    && (s.phase.SyncingTriggers? ==> VariablesInStep(s))
  }

  /****** Steps that bring nothing into step, or out of it ******/

  predicate SameWorld(s: Sys, t: Sys) { t.cloud.held == s.cloud.held && t.cluster == s.cluster }

  lemma QuietFrame(s: Sys, t: Sys)
    requires MirrorInv(s) && SameWorld(s, t)
    requires t.mem == s.mem || !Notified(t.phase)
    requires t.phase == s.phase || !Notified(t.phase) ||
             (Notified(s.phase) && (t.phase.ReadingRun? || t.phase.StoringRunStatus? || t.phase.ReadingState?))
    ensures MirrorInv(t)
  {
  }

  lemma DeletionIsQuiet(s: Sys, l: Label)
    requires DeletionCall(l) && AtDeletionCall(s, l)
    ensures SameWorld(s, DeletionStep(s, l)) && !Notified(DeletionStep(s, l).phase)
  {
  }

  lemma RunCallIsQuiet(s: Sys, l: Label)
    requires RunCall(l) && AtRunCall(s, l)
    ensures SameWorld(s, RunStep(s, l)) && !Notified(RunStep(s, l).phase)
  {
  }

  lemma SetupIsQuiet(s: Sys, l: Label)
    requires (l.ReadWorkspace? || l.CreateWorkspace? || l.ReadRun?) && AtSetupCall(s, l)
    ensures SameWorld(s, SetupStep(s, l)) && SetupStep(s, l).mem == s.mem
    ensures !Notified(SetupStep(s, l).phase) || (Notified(s.phase) && SetupStep(s, l).phase.StoringRunStatus?)
  {
  }

  lemma ObjectCallIsQuiet(s: Sys, l: Label)
    requires ObjectCall(l) && AtObjectCall(s, l) && !s.phase.StoringOutputs?
    ensures SameWorld(s, ObjectStep(s, l)) && !Notified(ObjectStep(s, l).phase)
  {
  }

  lemma EventIsQuiet(s: Sys, l: Label)
    requires !OperatorCall(l) && !l.Drift?
    ensures var t := if ServerMove(l) then ServerStep(s, l) else UserStep(s, l);
            SameWorld(s, t) && t.mem == s.mem && (t.phase == s.phase || t.phase == Idle)
  {
  }

  /****** Steps that bring something into step ******/

  lemma {:induction false} NotificationsStayValid(r: Notifications.Remote, calls: seq<Notifications.Call>)
    requires Notifications.ValidRemote(r)
    ensures Notifications.ValidRemote(Notifications.ApplyAll(r, calls))
  {
    if calls != [] {
      NotificationsStayValid(r, calls[..|calls| - 1]);
    }
  }

  lemma {:induction false} TriggersStayValid(r: RunTriggers.Remote, calls: seq<RunTriggers.Call>)
    requires RunTriggers.ValidRemote(r)
    ensures RunTriggers.ValidRemote(RunTriggers.ApplyAll(r, calls))
  {
    if calls != [] {
      TriggersStayValid(r, calls[..|calls| - 1]);
    }
  }

  lemma {:induction false} VariablesStayValid(r: Variables.Remote, calls: seq<Variables.Call>)
    requires Variables.ValidRemote(r)
    ensures Variables.ValidRemote(Variables.ApplyAll(r, calls))
  {
    if calls != [] {
      VariablesStayValid(r, calls[..|calls| - 1]);
    }
  }

  lemma NotifyMirrors(s: Sys, listed: seq<Notifications.Listed>, relisted: seq<Notifications.Listed>,
                      calls: seq<Notifications.Call>, ok: bool)
    requires MirrorInv(s) && s.phase == Notifying && AllowedNotify(s, listed, relisted, calls, ok)
    ensures MirrorInv(AfterNotify(s, calls, ok))
  {
    var spec, r := s.mem.spec.notifications, s.cloud.held.notifications;
    var held := Notifications.ApplyAll(r, calls);
    NotificationsStayValid(r, calls);
    if ok {
      if Notifications.DistinctNames(spec) {
        NotificationsConverge(spec, listed, relisted, r);
      }
      NotifiedLeads(s, calls);
    }
  }

  lemma NotificationsConverge(spec: seq<Notifications.Notification>, listed: seq<Notifications.Listed>,
                              relisted: seq<Notifications.Listed>, r: Notifications.Remote)
    requires Notifications.ValidRemote(r) && Notifications.Listings(spec, listed, relisted, r) &&
             Notifications.DistinctNames(spec)
    ensures Notifications.Mirrors(spec, Notifications.ApplyAll(r, Notifications.Plan(spec, listed, relisted)))
  {
    Notifications.DistinctNamesHideNone(spec, r);
    Notifications.ConvergesExactlyIfNoneHidden(spec, listed, relisted, r);
  }

  lemma NotifiedLeads(s: Sys, calls: seq<Notifications.Call>)
    requires s.phase == Notifying && Collected(s.cloud.held)
    requires Notifications.ValidRemote(Notifications.ApplyAll(s.cloud.held.notifications, calls))
    requires Notifications.DistinctNames(s.mem.spec.notifications) ==>
               Notifications.Mirrors(s.mem.spec.notifications,
                   Notifications.ApplyAll(s.cloud.held.notifications, calls))
    ensures MirrorInv(AfterNotify(s, calls, true))
  {
  }

  lemma ReadStateMirrors(s: Sys, l: Label)
    requires MirrorInv(s) && s.phase == ReadingState && l.ReadState? && Allowed(s, l)
    ensures MirrorInv(AfterReadState(s, l.outputs, l.o))
  {
  }

  lemma StoreOutputsMirrors(s: Sys, written: Status, o: Outcome)
    requires MirrorInv(s) && s.phase.StoringOutputs? && NextStatus(s) == Some(written)
    ensures MirrorInv(AfterWriteStatus(s, written, o))
  {
    var t := AfterWriteStatus(s, written, o);
    OutputsAreStored(s, t, written, o);
    if t.phase == Idle {
      QuietFrame(s, t);
    }
  }

  lemma OutputsAreStored(s: Sys, t: Sys, written: Status, o: Outcome)
    requires s.phase.StoringOutputs? && NextStatus(s) == Some(written) && t == AfterWriteStatus(s, written, o)
    ensures SameWorld(s, t)
    ensures t.phase == Idle ||
            (t.phase == PublishingSecret && t.mem.spec == s.mem.spec &&
                t.mem.status == s.mem.status.(outputs := s.phase.outputs))
  {
  }

  lemma PutSecretMirrors(s: Sys, o: Outcome)
    requires MirrorInv(s) && s.phase == PublishingSecret
    ensures MirrorInv(AfterPutSecret(s, o))
  {
  }

  lemma PutConfigMirrors(s: Sys, o: Outcome)
    requires MirrorInv(s) && s.phase == Templating
    ensures MirrorInv(AfterPutConfig(s, o))
  {
  }

  lemma SyncVariablesMirrors(s: Sys, shown: seq<Variables.Listed>, changes: seq<Variables.Call>, ok: bool)
    requires MirrorInv(s) && s.phase.SyncingVariables? && AllowedVariables(s, shown, changes, ok)
    ensures MirrorInv(AfterSyncVariables(s, shown, changes, ok))
  {
    var r := s.cloud.held.variables;
    VariablesStayValid(r, changes);
    if Wanted(s).Some? && ok {
      var wanted := Wanted(s).value;
      if Variables.DistinctSettings(wanted) {
        Variables.PlanConverges(wanted, s.cluster.sources.mount, shown, r);
      }
    }
    SyncedLeads(s, shown, changes, ok);
  }

  lemma SyncedLeads(s: Sys, shown: seq<Variables.Listed>, changes: seq<Variables.Call>, ok: bool)
    requires MirrorInv(s) && s.phase.SyncingVariables?
    requires var r := Variables.ApplyAll(s.cloud.held.variables, changes);
             Variables.ValidRemote(r) && Variables.DistinctKeys(r)
    requires ok && Wanted(s).Some? && Variables.DistinctSettings(Wanted(s).value) ==>
               Variables.Mirrors(Wanted(s).value, Variables.ApplyAll(s.cloud.held.variables, changes))
    ensures MirrorInv(AfterSyncVariables(s, shown, changes, ok))
  {
  }

  /** All that a call brings into step before it decides on a new run. */
  predicate InStep(s: Sys) {
    NotificationsInStep(s) && Published(s) && Templated(s) && VariablesInStep(s) && TriggersInStep(s)
  }

  lemma SyncTriggersMirrors(s: Sys, inbound: seq<RunTriggers.Listed>, edits: seq<RunTriggers.Call>, ok: bool)
    requires MirrorInv(s) && s.phase.SyncingTriggers? && AllowedTriggers(s, inbound, edits, ok)
    ensures MirrorInv(AfterSyncTriggers(s, inbound, edits, ok))
    ensures ok ==> InStep(AfterSyncTriggers(s, inbound, edits, ok))
  {
    var r := s.cloud.held.triggers;
    TriggersStayValid(r, edits);
    if ok {
      RunTriggers.PlanConverges(s.mem.spec.runTriggers, inbound, r);
    }
    TriggersLead(s, inbound, edits, ok);
  }

  lemma TriggersLead(s: Sys, inbound: seq<RunTriggers.Listed>, edits: seq<RunTriggers.Call>, ok: bool)
    requires MirrorInv(s) && s.phase.SyncingTriggers?
    requires var r := RunTriggers.ApplyAll(s.cloud.held.triggers, edits);
             RunTriggers.ValidRemote(r) && (ok ==> RunTriggers.Mirrors(s.mem.spec.runTriggers, r))
    ensures MirrorInv(AfterSyncTriggers(s, inbound, edits, ok))
    ensures ok ==> InStep(AfterSyncTriggers(s, inbound, edits, ok))
  {
  }

  /****** Events ******/

  lemma DriftMirrors(s: Sys, l: Label)
    requires MirrorInv(s) && l.Drift? && AtUserStep(s, l) && Allowed(s, l)
    ensures MirrorInv(UserStep(s, l))
  {
  }

  /****** Every step ******/

  lemma SetupMirrors(s: Sys, l: Label)
    requires MirrorInv(s) && SetupCall(l) && AtSetupCall(s, l) && Allowed(s, l)
    ensures MirrorInv(SetupStep(s, l))
  {
    if l.Notify? { NotifyMirrors(s, l.listed, l.relisted, l.calls, l.ok); }
    else if l.ReadState? { ReadStateMirrors(s, l); }
    else if l.PutSecret? { PutSecretMirrors(s, l.o); }
    else {
      SetupIsQuiet(s, l);
      QuietFrame(s, SetupStep(s, l));
    }
  }

  lemma SyncMirrors(s: Sys, l: Label)
    requires MirrorInv(s) && SyncCall(l) && AtSyncCall(s, l) && Allowed(s, l)
    ensures MirrorInv(SyncStep(s, l))
  {
    if l.PutConfig? { PutConfigMirrors(s, l.o); }
    else if l.SyncVariables? { SyncVariablesMirrors(s, l.shown, l.changes, l.ok); }
    else { SyncTriggersMirrors(s, l.inbound, l.edits, l.ok); }
  }

  lemma EventMirrors(s: Sys, l: Label)
    requires MirrorInv(s) && !OperatorCall(l) && Allowed(s, l)
    requires if ServerMove(l) then AtServerMove(s, l) else AtUserStep(s, l)
    ensures MirrorInv(if ServerMove(l) then ServerStep(s, l) else UserStep(s, l))
  {
    if l.Drift? {
      DriftMirrors(s, l);
    } else {
      EventIsQuiet(s, l);
      QuietFrame(s, if ServerMove(l) then ServerStep(s, l) else UserStep(s, l));
    }
  }

  lemma OtherCallMirrors(s: Sys, l: Label)
    requires MirrorInv(s) && (DeletionCall(l) || RunCall(l) || ObjectCall(l)) && At(s, l)
    ensures MirrorInv(Step(s, l))
  {
    if DeletionCall(l) { DeletionIsQuiet(s, l); QuietFrame(s, DeletionStep(s, l)); }
    else if RunCall(l) { RunCallIsQuiet(s, l); QuietFrame(s, RunStep(s, l)); }
    else if s.phase.StoringOutputs? { StoreOutputsMirrors(s, l.written, l.o); }
    else { ObjectCallIsQuiet(s, l); QuietFrame(s, ObjectStep(s, l)); }
  }

  lemma StepMirrors(s: Sys, l: Label)
    requires MirrorInv(s) && Enabled(s, l)
    ensures MirrorInv(Step(s, l))
  {
    if DeletionCall(l) || RunCall(l) || ObjectCall(l) { OtherCallMirrors(s, l); }
    else if SetupCall(l) { SetupMirrors(s, l); }
    else if SyncCall(l) { SyncMirrors(s, l); }
    else { EventMirrors(s, l); }
  }

  lemma MirrorsNext(states: seq<Sys>, labels: seq<Label>, i: nat)
    requires IsRun(states, labels) && i < |labels| && MirrorInv(states[i])
    ensures MirrorInv(states[i + 1])
  {
    assert StepAt(states, labels, i);
    StepMirrors(states[i], labels[i]);
  }

  lemma InitMirrors(s: Sys)
    requires Init(s)
    ensures MirrorInv(s)
  {
  }

  lemma {:induction false} RunMirrors(states: seq<Sys>, labels: seq<Label>, n: nat)
    requires IsRun(states, labels) && MirrorInv(states[0]) && n < |states|
    ensures MirrorInv(states[n])
    decreases n
  {
    if n > 0 {
      RunMirrors(states, labels, n - 1);
      MirrorsNext(states, labels, n - 1);
    }
  }

  /****** When Reconcile asks to be called again after a while ******/

  /** The step ends a call with the request to look again after a while. */
  predicate Settles(s: Sys, t: Sys) { s.phase != Idle && t.phase == Idle && t.returned == Settled }

  /** Only the last of the syncs ends a call that way: it found nothing to run for. */
  lemma OnlyTriggersSettle(s: Sys, l: Label)
    requires At(s, l) && Settles(s, Step(s, l))
    ensures l.SyncTriggers? && l.ok && s.phase == SyncingTriggers(false)
    ensures s.mem.status.run.Some? && s.mem.status.version.None?
    ensures RunTriggers.Creates(s.mem.spec.runTriggers, l.inbound) == []
  {
    if SyncCall(l) { SyncSettles(s, l); }
    else if SetupCall(l) || RunCall(l) { CallsDoNotSettle(s, l); }
    else { NothingElseSettles(s, l); }
  }

  lemma SyncSettles(s: Sys, l: Label)
    requires SyncCall(l) && AtSyncCall(s, l) && Settles(s, SyncStep(s, l))
    ensures l.SyncTriggers? && l.ok && s.phase == SyncingTriggers(false)
    ensures s.mem.status.run.Some? && s.mem.status.version.None?
    ensures RunTriggers.Creates(s.mem.spec.runTriggers, l.inbound) == []
  {
  }

  lemma CallsDoNotSettle(s: Sys, l: Label)
    ensures SetupCall(l) && AtSetupCall(s, l) ==> !Settles(s, SetupStep(s, l))
    ensures RunCall(l) && AtRunCall(s, l) ==> !Settles(s, RunStep(s, l))
  {
  }

  lemma NothingElseSettles(s: Sys, l: Label)
    ensures DeletionCall(l) && AtDeletionCall(s, l) ==> !Settles(s, DeletionStep(s, l))
    ensures ObjectCall(l) && AtObjectCall(s, l) ==> !Settles(s, ObjectStep(s, l))
    ensures ServerMove(l) ==> !Settles(s, ServerStep(s, l))
    ensures !OperatorCall(l) && !ServerMove(l) ==> !Settles(s, UserStep(s, l))
  {
  }

  /** Whenever Reconcile asks only to be called again after a while, everything is in step with the spec that
      the call had read, the status of that object is what the cluster has, and nothing is left to be run.
      How the outputs stand to the state is said in `PublishedOutputs`. */
  lemma SettledMirrorsTheSpec(states: seq<Sys>, labels: seq<Label>, n: nat)
    requires IsRun(states, labels) && Init(states[0]) && n < |labels| && Settles(states[n], states[n + 1])
    ensures InStep(states[n + 1])
    ensures var s := states[n + 1];
            && s.mem == states[n].mem && s.mem.status.run.Some? && s.mem.status.version.None? &&
               !IsPending(s.mem.status.runStatus)
            && (s.live.Some? ==> s.live.value.status == s.mem.status && (Fresh(s) ==> s.live.value == s.mem))
  {
    InitIsSafe(states[0]);
    RunIsSafe(states, labels, n);
    InitMirrors(states[0]);
    RunMirrors(states, labels, n);
    assert StepAt(states, labels, n);
    SettlingMirrors(states[n], labels[n]);
  }

  lemma SettlingMirrors(s: Sys, l: Label)
    requires CopyInv(s) && PhaseInv(s) && MirrorInv(s) && Enabled(s, l) && Settles(s, Step(s, l))
    ensures var t := Step(s, l);
            && InStep(t) && t.mem == s.mem && t.mem.status.run.Some? && t.mem.status.version.None? &&
               !IsPending(t.mem.status.runStatus)
            && (t.live.Some? ==> t.live.value.status == t.mem.status && (Fresh(t) ==> t.live.value == t.mem))
  {
    OnlyTriggersSettle(s, l);
    LastSyncSettles(s, l);
    SyncTriggersMirrors(s, l.inbound, l.edits, l.ok);
    SettledCopy(s, Step(s, l));
  }

  lemma LastSyncSettles(s: Sys, l: Label)
    requires l.SyncTriggers? && l.ok && s.phase == SyncingTriggers(false) && Settles(s, Step(s, l))
    ensures var t := Step(s, l);
            t == AfterSyncTriggers(s, l.inbound, l.edits, true) && t.mem == s.mem && t.live == s.live
  {
  }

  lemma SettledCopy(s: Sys, t: Sys)
    requires CopyInv(s) && PhaseInv(s) && s.phase == SyncingTriggers(false) && t.mem == s.mem && t.live == s.live
    ensures !IsPending(t.mem.status.runStatus)
    ensures t.live.Some? ==> t.live.value.status == t.mem.status && (Fresh(t) ==> t.live.value == t.mem)
  {
  }
}

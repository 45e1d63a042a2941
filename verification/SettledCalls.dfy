/**
 When a call of Reconcile that has synced everything goes on to make a run (workspacehelper/workspace_helper.go): said
 of the calls that it made and of what was held before, over whole runs of the machine.
 */
module SettledCalls {
  import opened Options
  import opened Outcomes
  import opened Runs
  import opened Machine
  import opened MachineInvariants
  import opened Safety
  import opened Mirroring
  import RunTriggers
  import Variables

  /****** Reports and calls ******/

  predicate HasUpdate(changes: seq<Variables.Call>) { exists c :: c in changes && c.Update? }

  predicate HasCreate(edits: seq<RunTriggers.Call>) { exists c :: c in edits && c.Create? }

  lemma {:induction false} DeletesOnlyDelete(spec: seq<Variables.Setting>, listed: seq<Variables.Listed>)
    ensures forall c :: c in Variables.Deletes(spec, listed) ==> c.Delete?
    decreases |listed|
  {
    if listed != [] { DeletesOnlyDelete(spec, listed[..|listed| - 1]); }
  }

  lemma {:induction false} CreatesOnlyCreate(spec: seq<Variables.Setting>, mount: map<string, string>,
                                             listed: seq<Variables.Listed>)
    ensures forall c :: c in Variables.Creates(spec, mount, listed).calls ==> c.Create?
    decreases |spec|
  {
    if spec != [] { CreatesOnlyCreate(spec[..|spec| - 1], mount, listed); }
  }

  lemma {:induction false} PlainUpdatesOnlyUpdate(spec: seq<Variables.Setting>, listed: seq<Variables.Listed>)
    ensures forall c :: c in Variables.PlainUpdates(spec, listed) ==> c.Update?
    decreases |spec|
  {
    if spec != [] { PlainUpdatesOnlyUpdate(spec[..|spec| - 1], listed); }
  }

  /** A sync of the variables that went through reports a change exactly if it sent an update. */
  lemma ReportedExactlyIfUpdated(spec: seq<Variables.Setting>, mount: map<string, string>,
                                 listed: seq<Variables.Listed>)
    requires Variables.Plan(spec, mount, listed).ok
    ensures Variables.Plan(spec, mount, listed).updated <==> HasUpdate(Variables.Plan(spec, mount, listed).calls)
  {
    var deletes, creates := Variables.Deletes(spec, listed), Variables.Creates(spec, mount, listed).calls;
    var updates := Variables.Updates(spec, mount, listed).calls;
    DeletesOnlyDelete(spec, listed);
    CreatesOnlyCreate(spec, mount, listed);
    PlainUpdatesOnlyUpdate(spec, listed);
    if updates != [] {
      var plain := Variables.PlainUpdates(spec, listed);
      assert plain != [] && plain[0] in plain;
      assert plain[0] in updates && plain[0] in deletes + creates + updates;
    }
  }

  lemma {:induction false} TriggerDeletesOnlyDelete(spec: seq<string>, listed: seq<RunTriggers.Listed>)
    ensures forall c :: c in RunTriggers.Deletes(spec, listed) ==> c.Delete?
    decreases |listed|
  {
    if listed != [] { TriggerDeletesOnlyDelete(spec, listed[..|listed| - 1]); }
  }

  lemma CreatedExactlyIfPlanned(spec: seq<string>, listed: seq<RunTriggers.Listed>)
    ensures HasCreate(RunTriggers.Plan(spec, listed)) <==> RunTriggers.Creates(spec, listed) != []
  {
    var creates := RunTriggers.Creates(spec, listed);
    TriggerDeletesOnlyDelete(spec, listed);
    RunTriggers.CreatesWhich(spec, listed);
    if creates != [] {
      assert creates[0] in creates && creates[0] in RunTriggers.Plan(spec, listed);
    }
  }

  /****** How a call comes to its syncs ******/

  /** Where the syncs begin. */
  predicate Begins(s: Sys, t: Sys) {
    t.mem == s.mem && t.phase == if s.mem.spec.vcs then SyncingVariables(false) else Templating
  }

  lemma SetupBegins(s: Sys, l: Label)
    requires SetupCall(l) && AtSetupCall(s, l) && Syncing(SetupStep(s, l).phase)
    ensures Begins(s, SetupStep(s, l))
  {
  }

  lemma ObjectCallDoesNotSync(s: Sys, l: Label)
    requires ObjectCall(l) && AtObjectCall(s, l)
    ensures !Syncing(ObjectStep(s, l).phase)
  {
  }

  lemma OthersBegin(s: Sys, l: Label)
    requires At(s, l) && OperatorCall(l) && !SyncCall(l) && Syncing(Step(s, l).phase)
    ensures Begins(s, Step(s, l))
  {
    if DeletionCall(l) { DeletionIsQuiet(s, l); }
    else if RunCall(l) { RunCallIsQuiet(s, l); }
    else if ObjectCall(l) { ObjectCallDoesNotSync(s, l); }
    else { SetupBegins(s, l); }
  }

  /** The two syncs before the last. */
  predicate Puts(s: Sys, l: Label, t: Sys) {
    && l.PutConfig? && l.o.Done? && s.phase == Templating && t.mem == s.mem
    && t.phase == SyncingVariables(s.cluster.config != Text(s))
  }

  predicate Sends(s: Sys, l: Label, t: Sys) {
    && l.SyncVariables? && l.ok && s.phase.SyncingVariables? && t.mem == s.mem && Wanted(s).Some?
    && t.phase == SyncingTriggers(s.phase.updated ||
                                  Variables.Plan(Wanted(s).value, s.cluster.sources.mount, l.shown).updated)
  }

  lemma SyncGoesOn(s: Sys, l: Label)
    requires SyncCall(l) && AtSyncCall(s, l) && Syncing(SyncStep(s, l).phase)
    ensures Puts(s, l, SyncStep(s, l)) || Sends(s, l, SyncStep(s, l))
  {
  }

  predicate Waits(s: Sys, t: Sys) { t.phase == s.phase && t.mem == s.mem }

  lemma EventWaits(s: Sys, l: Label)
    requires At(s, l) && !OperatorCall(l) && Syncing(Step(s, l).phase)
    ensures Waits(s, Step(s, l))
  {
    if l.Drift? {
    } else {
      EventIsQuiet(s, l);
    }
  }

  /** How a call comes to one of its syncs. */
  predicate ComesToSync(s: Sys, l: Label, t: Sys) { Waits(s, t) || Begins(s, t) || Puts(s, l, t) || Sends(s, l, t) }

  lemma StepComesToSync(s: Sys, l: Label)
    requires At(s, l) && Syncing(Step(s, l).phase)
    ensures ComesToSync(s, l, Step(s, l))
  {
    if SyncCall(l) { SyncGoesOn(s, l); }
    else if OperatorCall(l) { OthersBegin(s, l); }
    else { EventWaits(s, l); }
  }

  lemma ComesAt(states: seq<Sys>, labels: seq<Label>, k: nat)
    requires IsRun(states, labels) && k < |labels| && Syncing(states[k + 1].phase)
    ensures ComesToSync(states[k], labels[k], states[k + 1])
  {
    assert StepAt(states, labels, k);
    StepComesToSync(states[k], labels[k]);
  }

  /****** Over whole runs ******/

  /** From step `m` on the call has waited for what is due at `n`, with the same copy of the object. */
  predicate WaitsFrom(states: seq<Sys>, m: nat, n: nat) {
    m < n < |states| && forall k :: m < k <= n ==> states[k].phase == states[n].phase && states[k].mem == states[m].mem
  }

  ghost predicate TemplatesOnlyModules(s: Sys) { s.phase == Templating ==> !s.mem.spec.vcs }

  lemma {:induction false} OnlyModulesAreTemplated(states: seq<Sys>, labels: seq<Label>, n: nat)
    requires IsRun(states, labels) && Init(states[0]) && n < |states|
    ensures TemplatesOnlyModules(states[n])
    decreases n
  {
    if n > 0 && states[n].phase == Templating {
      OnlyModulesAreTemplated(states, labels, n - 1);
      ComesAt(states, labels, n - 1);
    }
  }

  /** The step at which the call that syncs the triggers at `n` synced its variables. */
  predicate SendsFor(states: seq<Sys>, labels: seq<Label>, m: nat, n: nat) {
    m < |labels| && m + 1 < |states| && WaitsFrom(states, m, n) && Sends(states[m], labels[m], states[m + 1])
  }

  lemma {:induction false} VariablesWereSent(states: seq<Sys>, labels: seq<Label>, n: nat) returns (m: nat)
    requires IsRun(states, labels) && Init(states[0]) && n < |states| && states[n].phase.SyncingTriggers?
    ensures SendsFor(states, labels, m, n)
    decreases n
  {
    ComesAt(states, labels, n - 1);
    if Waits(states[n - 1], states[n]) {
      m := VariablesWereSent(states, labels, n - 1);
    } else {
      m := n - 1;
    }
  }

  /** The step at which the call that syncs the variables at `n` wrote the template. */
  predicate PutsFor(states: seq<Sys>, labels: seq<Label>, m: nat, n: nat) {
    m < |labels| && m + 1 < |states| && WaitsFrom(states, m, n) && Puts(states[m], labels[m], states[m + 1])
  }

  lemma {:induction false} TemplateWasPut(states: seq<Sys>, labels: seq<Label>, n: nat) returns (m: nat)
    requires IsRun(states, labels) && Init(states[0]) && n < |states| && states[n].phase.SyncingVariables?
    ensures if states[n].mem.spec.vcs then !states[n].phase.updated else PutsFor(states, labels, m, n)
    decreases n
  {
    ComesAt(states, labels, n - 1);
    if Waits(states[n - 1], states[n]) {
      m := TemplateWasPut(states, labels, n - 1);
    } else {
      m := n - 1;
      OnlyModulesAreTemplated(states, labels, n - 1);
    }
  }

  /****** What decides on a run ******/

  /** The next thing that the call does is to make a run. */
  predicate StartsRun(p: Phase) {
    p == ListingVersions || p == CreatingVersion || p == ReadingVersion || p == CreatingRun(None)
  }

  lemma LastSyncDecides(s: Sys, l: Label)
    requires l.SyncTriggers? && l.ok && s.phase.SyncingTriggers?
    ensures var t := SyncStep(s, l);
            var updated := s.phase.updated || RunTriggers.Creates(s.mem.spec.runTriggers, l.inbound) != [];
            && (Settles(s, t) <==> !updated && s.mem.status.run.Some? && s.mem.status.version.None?)
            && (!Settles(s, t) ==> StartsRun(t.phase))
  {
  }

  lemma TriggersDecide(s: Sys, l: Label)
    requires Enabled(s, l) && l.SyncTriggers? && l.ok
    ensures s.phase.SyncingTriggers?
    ensures var t := Step(s, l);
            && (Settles(s, t) <==> !s.phase.updated && !HasCreate(l.edits) && s.mem.status.run.Some? &&
                                   s.mem.status.version.None?)
            && (!Settles(s, t) ==> StartsRun(t.phase))
  {
    CreatedExactlyIfPlanned(s.mem.spec.runTriggers, l.inbound);
    LastSyncDecides(s, l);
  }

  /** The ConfigMap did not hold the text that the call was about to write. */
  predicate TextDiffers(s: Sys) { s.cluster.config != Text(s) }

  lemma SendingReports(s: Sys, l: Label)
    requires Enabled(s, l) && Sends(s, l, Step(s, l))
    ensures Step(s, l).phase.updated <==> s.phase.updated || HasUpdate(l.changes)
  {
    ReportedExactlyIfUpdated(Wanted(s).value, s.cluster.sources.mount, l.shown);
  }

  lemma SentReports(states: seq<Sys>, labels: seq<Label>, m: nat, n: nat)
    requires IsRun(states, labels) && SendsFor(states, labels, m, n)
    ensures states[n].phase.SyncingTriggers? && states[m].phase.SyncingVariables?
    ensures states[n].phase.updated <==> states[m].phase.updated || HasUpdate(labels[m].changes)
  {
    assert StepAt(states, labels, m);
    SendingReports(states[m], labels[m]);
  }

  lemma PutReports(states: seq<Sys>, labels: seq<Label>, j: nat, m: nat)
    requires IsRun(states, labels) && PutsFor(states, labels, j, m)
    ensures states[m].phase == SyncingVariables(TextDiffers(states[j]))
  {
  }

  /** What the call under way at `n` changed, with its template written at step `j` and its variables synced at `m`. */
  predicate Changed(states: seq<Sys>, labels: seq<Label>, j: nat, m: nat, n: nat)
    requires j < |states| && m < |states| && m < |labels| && labels[m].SyncVariables?
    requires n < |labels| && labels[n].SyncTriggers?
  {
    (!states[m].mem.spec.vcs && TextDiffers(states[j])) || HasUpdate(labels[m].changes) || HasCreate(labels[n].edits)
  }

  /** A call that has synced everything ends with the request to look again after a while exactly if it found the
      template's text in the ConfigMap, sent no update of a variable and created no trigger, a run is on record, and no
      version is held.  Otherwise it goes on to make a run. */
  lemma ChangesDecideOnARun(states: seq<Sys>, labels: seq<Label>, n: nat) returns (j: nat, m: nat)
    requires IsRun(states, labels) && Init(states[0]) && n < |labels| && labels[n].SyncTriggers? && labels[n].ok
    ensures SendsFor(states, labels, m, n) && j < |states|
    ensures !states[m].mem.spec.vcs ==> PutsFor(states, labels, j, m)
    ensures var status := states[n].mem.status;
            Settles(states[n], states[n + 1]) <==>
            !Changed(states, labels, j, m, n) && status.run.Some? && status.version.None?
    ensures !Settles(states[n], states[n + 1]) ==> StartsRun(states[n + 1].phase)
  {
    assert StepAt(states, labels, n);
    TriggersDecide(states[n], labels[n]);
    m := VariablesWereSent(states, labels, n);
    SentReports(states, labels, m, n);
    j := TemplateWasPut(states, labels, m);
    if states[m].mem.spec.vcs {
      j := 0;
    } else {
      PutReports(states, labels, j, m);
    }
  }

  /** No remote variable that is not sensitive had another value or HCL flag than the spec asks for. */
  predicate NoneDiffers(s: Sys) {
    Wanted(s).Some? && forall id :: id in s.cloud.held.variables.vars ==>
        !Variables.Differs(Wanted(s).value, s.cloud.held.variables.vars[id])
  }

  /** Every source of a trigger in the spec was there. */
  predicate NoneMissing(s: Sys) {
    forall source :: source in s.mem.spec.runTriggers ==> RunTriggers.HasSource(s.cloud.held.triggers, source)
  }

  lemma NoUpdateNoDifference(s: Sys, l: Label)
    requires Enabled(s, l) && l.SyncVariables? && l.ok && Wanted(s).Some? && Collected(s.cloud.held)
    requires Variables.DistinctSettings(Wanted(s).value)
    ensures HasUpdate(l.changes) <==> !NoneDiffers(s)
  {
    ReportedExactlyIfUpdated(Wanted(s).value, s.cluster.sources.mount, l.shown);
    Variables.UpdatedExactlyIfSomeDiffered(Wanted(s).value, s.cluster.sources.mount, l.shown, s.cloud.held.variables);
  }

  lemma NoCreateNoneMissing(s: Sys, l: Label)
    requires Enabled(s, l) && l.SyncTriggers? && l.ok
    ensures HasCreate(l.edits) <==> !NoneMissing(s)
  {
    var spec, r := s.mem.spec.runTriggers, s.cloud.held.triggers;
    CreatedExactlyIfPlanned(spec, l.inbound);
    RunTriggers.CreatesWhich(spec, l.inbound);
    forall source ensures RunTriggers.Has(l.inbound, source) <==> RunTriggers.HasSource(r, source) {
      ListedExactlyIfHeld(l.inbound, r, source);
    }
    var creates := RunTriggers.Creates(spec, l.inbound);
    if creates != [] { assert creates[0] in creates; }
  }

  lemma ListedExactlyIfHeld(listed: seq<RunTriggers.Listed>, r: RunTriggers.Remote, source: string)
    requires RunTriggers.Lists(listed, r)
    ensures RunTriggers.Has(listed, source) <==> RunTriggers.HasSource(r, source)
  {
    if id :| id in r.sources && r.sources[id] == source {
      assert RunTriggers.Listed(id, r.sources[id]) in listed;
    }
  }

  /** When a call settles, nothing that it synced would have asked for a run: as its template was written the ConfigMap
      held the text already, as its variables were synced none of them differed, and as its triggers were synced none
      was missing. */
  lemma SettledCallsFoundNoChange(states: seq<Sys>, labels: seq<Label>, n: nat) returns (j: nat, m: nat)
    requires IsRun(states, labels) && Init(states[0]) && n < |labels| && Settles(states[n], states[n + 1])
    ensures labels[n].SyncTriggers? && labels[n].ok && NoneMissing(states[n])
    ensures SendsFor(states, labels, m, n) && !HasUpdate(labels[m].changes)
    ensures Variables.DistinctSettings(Wanted(states[m]).value) ==> NoneDiffers(states[m])
    ensures !states[m].mem.spec.vcs ==> PutsFor(states, labels, j, m) && !TextDiffers(states[j])
  {
    assert StepAt(states, labels, n);
    OnlyTriggersSettle(states[n], labels[n]);
    j, m := ChangesDecideOnARun(states, labels, n);
    NoCreateNoneMissing(states[n], labels[n]);
    if Variables.DistinctSettings(Wanted(states[m]).value) {
      InitMirrors(states[0]);
      RunMirrors(states, labels, m);
      assert StepAt(states, labels, m);
      NoUpdateNoDifference(states[m], labels[m]);
    }
  }
}

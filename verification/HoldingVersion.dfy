/**
 A VCS workspace that holds a configuration version, as one may after its spec was changed from a module to a
 VCS repository, never comes to rest: the version stays in the status, and for its sake every call that is not
 waiting for a run starts another.
 */
module HoldingVersion {
  import opened Options
  import opened Outcomes
  import opened Runs
  import opened Workspace
  import opened Machine
  import opened MachineInvariants
  import opened Safety
  import opened Mirroring
  import opened Calm
  import opened Quiescence
  import opened Reaching
  import RunTriggers

  predicate Holding(s: Sys) {
    && s.live.Some? && !s.live.value.deleting && s.live.value.spec.vcs && s.live.value.status.version.Some?
    && !InDeletion(s.phase) && !ForModule(s.phase) && (s.phase != Idle ==> s.live == Some(s.mem))
  }

  lemma SetupHolds(s: Sys, l: Label)
    requires Holding(s) && SetupCall(l) && AtSetupCall(s, l)
    ensures Holding(SetupStep(s, l))
  {
  }

  lemma SyncHolds(s: Sys, l: Label)
    requires Holding(s) && SyncCall(l) && AtSyncCall(s, l)
    ensures Holding(SyncStep(s, l))
  {
  }

  lemma RunCallHolds(s: Sys, l: Label)
    requires Holding(s) && RunCall(l) && AtRunCall(s, l)
    ensures Holding(RunStep(s, l))
  {
  }

  lemma ObjectCallHolds(s: Sys, l: Label)
    requires Holding(s) && ObjectCall(l) && AtObjectCall(s, l) && CalmStep(l)
    ensures Holding(ObjectStep(s, l))
  {
  }

  lemma StepHolds(s: Sys, l: Label)
    requires Holding(s) && At(s, l) && CalmStep(l)
    ensures Holding(Step(s, l)) && !Settles(s, Step(s, l))
  {
    if SetupCall(l) { SetupHolds(s, l); }
    else if SyncCall(l) { SyncHolds(s, l); }
    else if RunCall(l) { RunCallHolds(s, l); }
    else if ObjectCall(l) { ObjectCallHolds(s, l); }
    if Settles(s, Step(s, l)) {
      OnlyTriggersSettle(s, l);
    }
  }

  lemma HoldsNext(states: seq<Sys>, labels: seq<Label>, n: nat, k: nat)
    requires IsUndisturbed(states, labels, n) && n <= k < |labels| && Holding(states[k])
    ensures Holding(states[k + 1]) && !Settles(states[k], states[k + 1])
  {
    assert StepAt(states, labels, k);
    StepHolds(states[k], labels[k]);
  }

  lemma {:induction false} HoldsThroughout(states: seq<Sys>, labels: seq<Label>, n: nat, k: nat)
    requires IsUndisturbed(states, labels, n) && n <= k < |states| && Holding(states[n])
    ensures Holding(states[k])
  {
    if k > n {
      HoldsThroughout(states, labels, n, k - 1);
      HoldsNext(states, labels, n, k - 1);
    }
  }

  /** However long nothing fails and nobody edits anything, no call settles. */
  lemma NeverSettles(states: seq<Sys>, labels: seq<Label>, n: nat, k: nat)
    requires IsUndisturbed(states, labels, n) && n <= k < |labels| && Holding(states[n])
    ensures !Settles(states[k], states[k + 1])
  {
    HoldsThroughout(states, labels, n, k);
    HoldsNext(states, labels, n, k);
  }

  /** A call that has synced everything goes on to create another run. */
  lemma AnotherRunIsCreated(s: Sys, inbound: seq<RunTriggers.Listed>, edits: seq<RunTriggers.Call>, status: RunStatus)
    requires Holding(s) && s.phase.SyncingTriggers? && s.cloud.repository && status != NoStatus
    ensures var t := AfterSyncTriggers(s, inbound, edits, true);
            var u := AfterListVersions(t, Done);
            && At(t, ListVersions(Done)) && At(u, CreateRun(status, Done))
            && AfterCreateRun(u, status, Done).cloud.runs == s.cloud.runs + [Run(Apply(None), status, false, false)]
  {
  }

  /****** How an object comes to be in this state ******/

  /** A module and no variables, notifications and triggers. */
  predicate Plain(spec: Spec) {
    !spec.vcs && spec.mod.Some? && spec.variables == [] && spec.notifications == [] && spec.runTriggers == []
  }

  function Having(version: Option<nat>): Status { Status(Some(0), None, NoStatus, version, []) }

  function Around(spec: Spec): Cluster {
    var cluster := Neighbours(None, Some(map[]));
    cluster.(config := TextOf(spec, cluster))
  }

  /** A point of the first call for a module, after the template. */
  function Templated(phase: Phase, revision: nat, spec: Spec, version: Option<nat>, versions: seq<Version>,
      returned: Result): Sys {
    Scene(phase, Resource(revision, spec, [FINALIZER], Having(version)), returned,
          Server([], versions, RunTriggers.Remote(map[], 0)), Around(spec), 0)
  }

  lemma TemplateIsPut(s: Sys)
    requires Reached(s) && s.phase == Templating
    ensures Reached(s.(phase := SyncingVariables(s.cluster.config != Text(s)),
            cluster := s.cluster.(config := Text(s))))
  {
    Then(s, PutConfig(Done));
  }

  lemma CallComesToTheTemplate(spec: Spec)
    requires Plain(spec)
    ensures Reached(Known(Templating, 2, spec, [FINALIZER]).(cluster := Neighbours(None, Some(map[]))))
  {
    FirstCallComesToNotifying(spec);
    ComesToTheSpec(Known(Notifying, 2, spec, [FINALIZER]));
  }

  lemma ModuleIsTemplated(spec: Spec)
    requires Plain(spec)
    ensures Reached(Templated(SyncingVariables(true), 2, spec, None, [], Nothing))
  {
    CallComesToTheTemplate(spec);
    TemplateIsPut(Known(Templating, 2, spec, [FINALIZER]).(cluster := Neighbours(None, Some(map[]))));
  }

  lemma VersionIsDue(spec: Spec)
    requires Plain(spec)
    ensures Reached(Templated(CreatingVersion, 2, spec, None, [], Nothing))
  {
    ModuleIsTemplated(spec);
    NoVariablesToSync(Templated(SyncingVariables(true), 2, spec, None, [], Nothing));
    assert RunTriggers.Plan([], []) == [];
    Then(Templated(SyncingTriggers(true), 2, spec, None, [], Nothing), SyncTriggers([], [], true));
  }

  lemma VersionIsMade(s: Sys, versions: seq<Version>)
    requires Reached(s) && s.phase == CreatingVersion
    requires versions == s.cloud.versions + [Version(Waiting, false, false, false)]
    ensures Reached(s.(phase := Uploading(|s.cloud.versions|), cloud := s.cloud.(versions := versions)))
  {
    Then(s, CreateVersion(Done));
  }

  lemma VersionIsCreated(spec: Spec)
    requires Plain(spec)
    ensures Reached(Templated(Uploading(0), 2, spec, None, [Version(Waiting, false, false, false)], Nothing))
  {
    VersionIsDue(spec);
    VersionIsMade(Templated(CreatingVersion, 2, spec, None, [], Nothing), [Version(Waiting, false, false, false)]);
  }

  lemma VersionIsUploaded(spec: Spec)
    requires Plain(spec)
    ensures Reached(Templated(StoringVersion(0), 2, spec, None, [Version(Waiting, true, false, false)], Nothing))
  {
    VersionIsCreated(spec);
    var created, given := Version(Waiting, false, false, false), Version(Waiting, true, false, false);
    assert [created][0 := given] == [given];
    Then(Templated(Uploading(0), 2, spec, None, [created], Nothing), Upload(Done));
  }

  lemma VersionIsStored(spec: Spec)
    requires Plain(spec)
    ensures Reached(Templated(ReadingVersion, 3, spec, Some(0), [Version(Waiting, true, true, false)], Nothing))
  {
    VersionIsUploaded(spec);
    var given, stored := Version(Waiting, true, false, false), Version(Waiting, true, true, false);
    assert [given][0 := stored] == [stored];
    Then(Templated(StoringVersion(0), 2, spec, None, [given], Nothing), WriteStatus(Having(Some(0)), Done));
  }

  lemma VersionIsAwaited(s: Sys)
    requires Reached(s) && s.phase == ReadingVersion && s.mem.status.version.Some?
    requires s.mem.status.version.value < |s.cloud.versions|
    requires s.cloud.versions[s.mem.status.version.value].status == Waiting
    ensures Reached(Return(s, Requeue))
  {
    Then(s, ReadVersion(Done));
  }

  lemma CallWaitsForTheVersion(spec: Spec)
    requires Plain(spec)
    ensures Reached(Templated(Idle, 3, spec, Some(0), [Version(Waiting, true, true, false)], Requeue))
  {
    VersionIsStored(spec);
    VersionIsAwaited(Templated(ReadingVersion, 3, spec, Some(0), [Version(Waiting, true, true, false)], Nothing));
  }

  lemma SpecIsChanged(s: Sys, spec: Spec)
    requires Reached(s) && s.phase == Idle && s.live.Some? && !s.live.value.deleting
    requires s.live.value.status.version.Some? && spec.vcs
    ensures Reached(AfterEdit(s, spec, [], [])) && Holding(AfterEdit(s, spec, [], [])) &&
            AfterEdit(s, spec, [], []).phase == Idle
  {
    Then(s, Edit(spec, [], []));
  }

  /** While the version of a module waits to be processed, the spec is changed to a VCS repository. */
  lemma HoldingIsReached(spec: Spec, changed: Spec)
    requires Plain(spec) && changed.vcs
    ensures exists s: Sys :: Reached(s) && s.phase == Idle && Holding(s) && s.live.value.spec == changed
  {
    CallWaitsForTheVersion(spec);
    SpecIsChanged(Templated(Idle, 3, spec, Some(0), [Version(Waiting, true, true, false)], Requeue), changed);
  }
}

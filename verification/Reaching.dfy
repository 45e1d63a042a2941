/** States that runs reach, and how far a call comes in a world where it finds nothing to do. */
module Reaching {
  import opened Options
  import opened Outcomes
  import opened Runs
  import opened Workspace
  import opened Machine
  import opened Safety
  import Notifications
  import RunTriggers
  import Variables

  ghost predicate LeadsTo(states: seq<Sys>, labels: seq<Label>, s: Sys) {
    IsRun(states, labels) && Init(states[0]) && states[|labels|] == s
  }

  /** Some run from the start leads to this state. */
  ghost predicate Reached(s: Sys) { exists states: seq<Sys>, labels: seq<Label> :: LeadsTo(states, labels, s) }

  lemma InitIsReached(s: Sys)
    requires Init(s)
    ensures Reached(s)
  {
    assert LeadsTo([s], [], s);
  }

  lemma Then(s: Sys, l: Label)
    requires Reached(s) && Enabled(s, l)
    ensures Reached(Step(s, l))
  {
    var states: seq<Sys>, labels: seq<Label> :| LeadsTo(states, labels, s);
    ThenLeads(states, labels, s, l);
  }

  lemma ThenLeads(states: seq<Sys>, labels: seq<Label>, s: Sys, l: Label)
    requires LeadsTo(states, labels, s) && Enabled(s, l)
    ensures LeadsTo(states + [Step(s, l)], labels + [l], Step(s, l))
  {
    var longer, more := states + [Step(s, l)], labels + [l];
    forall i | 0 <= i < |more| ensures StepAt(longer, more, i) {
      if i < |labels| {
        assert StepAt(states, labels, i);
      }
    }
  }

  /** A status write goes through when nobody else has written. */
  lemma StatusIsWritten(s: Sys, status: Status)
    requires Reached(s) && NextStatus(s) == Some(status) && s.live == Some(s.mem) && !s.mem.deleting
    requires !s.phase.RecordingRun? && !s.phase.StoringVersion?
    ensures var obj := s.mem.(status := status, revision := s.mem.revision + 1);
            Reached(AfterStatus(s.(mem := obj, live := Some(obj)), s))
  {
    Then(s, WriteStatus(status, Done));
  }

  /****** A world in which there is little to do ******/

  /** A spec without variables, outputs and notifications. */
  function Bare(vcs: bool, triggers: seq<string>): Spec {
    Spec("organization", vcs, if vcs then None else Some(Module("source", "version")), [], [], [], triggers)
  }

  /** The workspace is there; the server holds these runs, versions and triggers, and a state without outputs. */
  function Server(runs: seq<Run>, versions: seq<Version>, triggers: RunTriggers.Remote): Cloud {
    Cloud(Some(0), 1, runs, versions, true,
          Collections(Variables.Remote(map[], 0), triggers, Notifications.Remote(map[], 0)), map[])
  }

  function Neighbours(config: Option<string>, secret: Option<map<string, string>>): Cluster {
    Cluster(config, secret, Sources(References(map[], map[]), map[]), "namespace", "name")
  }

  function Resource(revision: nat, spec: Spec, finalizers: seq<string>, status: Status): Object {
    Object(revision, spec, false, finalizers, status)
  }

  function Scene(phase: Phase, obj: Object, returned: Result, cloud: Cloud, cluster: Cluster, lost: nat): Sys {
    Sys(phase, obj, returned, Some(obj), cloud, cluster, lost)
  }

  /** The object and its world before the first call, and at a point of that call. */
  function Opening(phase: Phase, spec: Spec): Sys {
    Scene(phase, Resource(0, spec, [], Status(None, None, NoStatus, None, [])), Nothing,
          Server([], [], RunTriggers.Remote(map[], 0)), Neighbours(None, None), 0)
  }

  function Known(phase: Phase, revision: nat, spec: Spec, finalizers: seq<string>): Sys {
    Scene(phase, Resource(revision, spec, finalizers, Status(Some(0), None, NoStatus, None, [])), Nothing,
          Server([], [], RunTriggers.Remote(map[], 0)), Neighbours(None, None), 0)
  }

  lemma OpensTheRun(spec: Spec)
    ensures Reached(Opening(Idle, spec))
  {
    assert Collected(Opening(Idle, spec).cloud.held);
    InitIsReached(Opening(Idle, spec));
  }

  lemma CallReadsTheObject(s: Sys)
    requires Reached(s) && s.phase == Idle && s.live.Some? && !s.live.value.deleting
    ensures Reached(s.(mem := s.live.value, phase := ReadingWorkspace))
  {
    Then(s, Fetch(Done));
  }

  lemma FirstCallFindsTheWorkspace(spec: Spec)
    ensures Reached(Opening(StoringWorkspace(0, None), spec))
  {
    OpensTheRun(spec);
    CallReadsTheObject(Opening(Idle, spec));
    Then(Opening(ReadingWorkspace, spec), ReadWorkspace(Done));
  }

  lemma FirstCallStoresTheId(spec: Spec)
    ensures Reached(Known(AddingFinalizer, 1, spec, []))
  {
    FirstCallFindsTheWorkspace(spec);
    StatusIsWritten(Opening(StoringWorkspace(0, None), spec), Status(Some(0), None, NoStatus, None, []));
  }

  /** The first call has found the workspace, stored its id and added the finalizer. */
  lemma FirstCallComesToNotifying(spec: Spec)
    ensures Reached(Known(Notifying, 2, spec, [FINALIZER]))
  {
    FirstCallStoresTheId(spec);
    assert [] + [FINALIZER] == [FINALIZER];
    Then(Known(AddingFinalizer, 1, spec, []), WriteFinalizers([FINALIZER], Done));
  }

  /** A call that begins with id, run and finalizer in order comes to the notifications. */
  lemma CallComesToNotifying(s: Sys)
    requires Reached(s) && s.phase == Idle && s.live.Some? && !s.live.value.deleting &&
             FINALIZER in s.live.value.finalizers
    requires s.cloud.workspace.Some? && s.live.value.status.workspace == s.cloud.workspace
    requires s.live.value.status.run.Some? ==> s.live.value.status.run == CurrentRun(s.cloud)
    ensures Reached(s.(mem := s.live.value, phase := Notifying))
  {
    CallReadsTheObject(s);
    Then(s.(mem := s.live.value, phase := ReadingWorkspace), ReadWorkspace(Done));
  }

  /** Nothing is asked for, and nothing is there, but for triggers. */
  predicate Quiet(s: Sys) {
    && s.mem.spec.variables == [] && s.mem.spec.notifications == []
    && s.cloud.held.variables.vars == map[] && s.cloud.held.notifications.held == map[]
    && s.cloud.state == map[] && s.mem.status.outputs == []
    && !IsPending(s.mem.status.runStatus) && !IsError(s.mem.status.runStatus)
  }

  lemma NothingToNotify(s: Sys)
    requires Reached(s) && Quiet(s) && s.phase == Notifying
    ensures Reached(HaveNotified(s))
  {
    assert Notifications.Plan([], [], []) == [];
    assert AllowedNotify(s, [], [], [], true);
    Then(s, Notify([], [], [], true));
  }

  lemma NothingToStore(s: Sys)
    requires Reached(s) && Quiet(s) && s.phase == ReadingState
    ensures Reached(s.(phase := PublishingSecret))
  {
    Then(s, ReadState([], Done));
  }

  lemma NothingToPublish(s: Sys)
    requires Reached(s) && Quiet(s) && s.phase == PublishingSecret
    ensures Reached(HavePublished(s.(cluster := s.cluster.(secret := Some(map[])))))
  {
    Then(s, PutSecret(Done));
  }

  /** From the notifications on, the call comes to where it looks at the spec. */
  lemma ComesToTheSpec(s: Sys)
    requires Reached(s) && Quiet(s) && s.phase == Notifying
    ensures Reached(HavePublished(s.(cluster := s.cluster.(secret := Some(map[])))))
  {
    NothingToNotify(s);
    NothingToStore(s.(phase := ReadingState));
    NothingToPublish(s.(phase := PublishingSecret));
  }

  lemma NoVariablesToSync(s: Sys)
    requires Reached(s) && Quiet(s) && s.phase.SyncingVariables?
    ensures Reached(s.(phase := SyncingTriggers(s.phase.updated)))
  {
    assert Wanted(s) == Some([]) by {
      assert ResolveAll([], s.cluster.sources.refs) == Some([]);
      assert Variables.ToSettings([]) == [];
    }
    assert Variables.Plan([], s.cluster.sources.mount, []) == Variables.Outline([], true, false);
    assert AllowedVariables(s, [], [], true);
    Then(s, SyncVariables([], [], true));
  }
}

/**
 Reconciliation as a machine of single steps (workspacehelper/workspace_helper.go, tfc_run.go).

 A step of the operator is one call to an API, whose outcome is not in its hands, together with the
 decisions up to the next call; `phase` is the call it is about to make.  A crash may come at any point, and
 between any two steps the server may move runs on and users may edit the object.  What the operator holds
 in memory is lost with a crash or an error, and read anew: `mem` is the object as last read or written,
 `live` the object in the cluster.
 */
module Machine {
  import opened Options
  import opened Outcomes
  import opened Runs
  import opened Workspace
  import Finalizers
  import Variables
  import RunTriggers
  import Notifications
  import Outputs
  import Template

  const FINALIZER := "finalizer.workspace.app.terraform.io"

  /****** State ******/

  datatype Status = Status(
    workspace: Option<nat>, run: Option<nat>, runStatus: RunStatus, version: Option<nat>,
    outputs: seq<Outputs.OutputStatus>)

  /** The custom resource; every write gives it a new revision, and a write of an old revision is turned down. */
  datatype Object = Object(revision: nat, spec: Spec, deleting: bool, finalizers: seq<string>, status: Status)

  /** `version` is the configuration version that was cleared from the status for this run. */
  datatype Kind = Apply(version: Option<nat>) | Destroy

  /** `recorded`: the run and its first status reached the object's status.  `cancelled`: its
      force-cancellation took effect at the server. */
  datatype Run = Run(kind: Kind, status: RunStatus, recorded: bool, cancelled: bool)

  datatype VersionStatus = Waiting | Uploaded | Failed

  /** `given`: the files were sent.  `stored`: its id reached the status.  `seen`: it was read as uploaded. */
  datatype Version = Version(status: VersionStatus, given: bool, stored: bool, seen: bool)

  /** The server.  Identifiers of runs and versions are their positions; the current run is the latest.  Of the
      state only what is to be published counts (`Outputs.Visible`). */
  datatype Cloud = Cloud(
    workspace: Option<nat>, issued: nat, runs: seq<Run>, versions: seq<Version>, repository: bool,
    held: Collections, state: map<string, string>)

  /** What the operator keeps in step with the spec. */
  datatype Collections = Collections(
    variables: Variables.Remote, triggers: RunTriggers.Remote, notifications: Notifications.Remote)

  /** The object's neighbours: the template's ConfigMap, the outputs' Secret, and what the references lead to. */
  datatype Cluster = Cluster(
    config: Option<string>, secret: Option<map<string, string>>, sources: Sources, namespace: string, name: string)

  /** What the object's references and the mounted files hold. */
  datatype Sources = Sources(refs: References, mount: map<string, string>)

  /** Why a finalizer may go. */
  datatype Reason =
    | Absent                                        // the workspace was not there, twice
    | Unsure                                        // the second look failed
    | NotOurs                                       // the operator's finalizer was not on the list
    | TornDown(listed: nat, destroyed: Option<nat>) // all was done

  datatype Phase =
    | Idle
    // deletion
    | CheckingExistence
    | CheckingAgain
    | ListingRuns
    | Cancelling(listed: nat, todo: seq<nat>)
    | ReadingCurrentRun(listed: nat)
    | CreatingDestroyRun(listed: nat)
    | Polling(listed: nat, run: nat)
    | DeletingWorkspace(listed: nat, destroyed: Option<nat>)
    | RemovingFinalizer(reason: Reason)
    // workspace
    | ReadingWorkspace
    | CreatingWorkspace
    | StoringWorkspace(id: nat, current: Option<nat>)
    | AdoptingRun(latest: nat)
    | AddingFinalizer
    | Notifying
    // the run in progress, and what a finished one left
    | ReadingRun
    | StoringRunStatus(status: RunStatus)
    | ReadingState
    | StoringOutputs(outputs: seq<Outputs.OutputStatus>)
    | PublishingSecret
    // what a change of the spec needs
    | Templating
    | SyncingVariables(updated: bool)
    | SyncingTriggers(updated: bool)
    // a new run
    | ListingVersions
    | CreatingVersion
    | Uploading(version: nat)
    | StoringVersion(version: nat)
    | ReadingVersion
    | ClearingVersion
    | CreatingRun(cleared: Option<nat>)
    | RecordingRun(run: nat, status: RunStatus)

  /** How a call of Reconcile ended: `Settled` is the request to look again after a while. */
  datatype Result = Nothing | Error | Requeue | Settled

  /** `lost` counts the apply runs whose creation the status never learnt of. */
  datatype Sys = Sys(
    phase: Phase, mem: Object, returned: Result, live: Option<Object>, cloud: Cloud, cluster: Cluster, lost: nat)

  /****** Steps ******/

  datatype Label =
    // calls of the operator
    | Fetch(o: Outcome)
    | CheckExistence(o: Outcome)
    | CheckAgain(o: Outcome)
    | ListRuns(o: Outcome)
    | ForceCancel(o: Outcome)
    | ReadCurrentRun(o: Outcome)
    | CreateDestroyRun(status: RunStatus, o: Outcome)
    | Poll(o: Outcome)
    | DeleteWorkspace(o: Outcome)
    | ReadWorkspace(o: Outcome)
    | CreateWorkspace(o: Outcome)
    | WriteStatus(written: Status, o: Outcome)
    | WriteFinalizers(finalizers: seq<string>, o: Outcome)
    | Notify(listed: seq<Notifications.Listed>, relisted: seq<Notifications.Listed>, calls: seq<Notifications.Call>,
        ok: bool)
    | ReadRun(o: Outcome)
    | ReadState(outputs: seq<Outputs.OutputStatus>, o: Outcome)
    | PutSecret(o: Outcome)
    | PutConfig(o: Outcome)
    | SyncVariables(shown: seq<Variables.Listed>, changes: seq<Variables.Call>, ok: bool)
    | SyncTriggers(inbound: seq<RunTriggers.Listed>, edits: seq<RunTriggers.Call>, ok: bool)
    | ListVersions(o: Outcome)
    | CreateVersion(o: Outcome)
    | Upload(o: Outcome)
    | ReadVersion(o: Outcome)
    | CreateRun(status: RunStatus, o: Outcome)
    // everything else
    | Crash
    | Advance(statuses: seq<RunStatus>)
    | Process(version: nat, result: VersionStatus)
    | Ingress
    | Change(state: map<string, string>)
    | Edit(spec: Spec, before: seq<string>, after: seq<string>)
    | Mark
    | Drift(variables: Variables.Remote, triggers: RunTriggers.Remote, notifications: Notifications.Remote,
            text: Option<string>, data: Option<map<string, string>>, sources: Sources)

  /** Control returns from Reconcile. */
  function Return(s: Sys, r: Result): Sys { s.(phase := Idle, returned := r) }

  /** A read succeeds or ends the call with an error. */
  function Read(s: Sys, o: Outcome, next: Sys): Sys { if o.Done? then next else Return(s, Error) }

  /** The copy in memory is the newest. */
  predicate Fresh(s: Sys) { s.live.Some? && s.live.value.revision == s.mem.revision }

  /** An object without finalizers that is marked for deletion is gone. */
  function Kept(obj: Object): Option<Object> { if obj.deleting && obj.finalizers == [] then None else Some(obj) }

  predicate Persists(s: Sys, o: Outcome) { Fresh(s) && o.Effective() }

  /** The object after a write of its status or of its finalizers. */
  function Written(s: Sys, o: Outcome, obj: Object): Sys {
    var newer := obj.(revision := obj.revision + 1);
    if Persists(s, o) then s.(live := Kept(newer), mem := newer) else s
  }

  predicate Succeeds(s: Sys, o: Outcome) { Fresh(s) && o.Done? }

  function CurrentRun(c: Cloud): Option<nat> { if c.runs == [] then None else Some(|c.runs| - 1) }

  /** The variables that a spec asks for, if every reference leads to a value. */
  function WantedBy(spec: Spec, cluster: Cluster): Option<seq<Variables.Setting>> {
    match ResolveAll(spec.variables, cluster.sources.refs)
    case None => None
    case Some(vs) => Some(Variables.ToSettings(vs))
  }

  function TextOf(spec: Spec, cluster: Cluster): Option<string> {
    Template.Render(spec, cluster.namespace, cluster.name)
  }

  function Wanted(s: Sys): Option<seq<Variables.Setting>> { WantedBy(s.mem.spec, s.cluster) }

  function Text(s: Sys): Option<string> { TextOf(s.mem.spec, s.cluster) }

  /** The workspace was found or made: store its id, adopt its current run, see to the finalizer. */
  function HaveWorkspace(s: Sys, id: nat, current: Option<nat>): Sys {
    if s.mem.status.workspace != Some(id) then s.(phase := StoringWorkspace(id, current)) else HaveStored(s, current)
  }

  function HaveStored(s: Sys, current: Option<nat>): Sys {
    if s.mem.status.run.Some? && current.Some? && s.mem.status.run != current then
      s.(phase := AdoptingRun(current.value))
    else HaveAdopted(s)
  }

  function HaveAdopted(s: Sys): Sys {
    s.(phase := if FINALIZER in s.mem.finalizers then Notifying else AddingFinalizer)
  }

  function HaveNotified(s: Sys): Sys {
    if IsPending(s.mem.status.runStatus) then s.(phase := ReadingRun)
    else if IsError(s.mem.status.runStatus) then HavePublished(s)
    else s.(phase := ReadingState)
  }

  function HavePublished(s: Sys): Sys {
    if s.mem.spec.vcs then s.(phase := SyncingVariables(false))
    else if s.mem.spec.mod.None? then Return(s, Error)
    else s.(phase := Templating)
  }

  function HaveSynced(s: Sys, updated: bool): Sys {
    if updated || s.mem.status.run.None? || s.mem.status.version.Some? then StartRun(s) else Return(s, Settled)
  }

  function StartRun(s: Sys): Sys {
    s.(phase :=
      if s.mem.spec.vcs then ListingVersions
      else if s.mem.spec.mod.None? then CreatingRun(None)
      else if s.mem.status.version.None? then CreatingVersion
      else ReadingVersion)
  }

  function Holding(s: Sys, held: Collections): Sys { s.(cloud := s.cloud.(held := held)) }

  function SetRun(c: Cloud, i: nat, run: Run): Cloud
    requires i < |c.runs|
  {
    c.(runs := c.runs[i := run])
  }

  function SetVersion(c: Cloud, i: nat, v: Version): Cloud
    requires i < |c.versions|
  {
    c.(versions := c.versions[i := v])
  }

  /** The next status write of a phase, and where it leads when it succeeds. */
  function NextStatus(s: Sys): Option<Status> {
    var p, st := s.phase, s.mem.status;
    if p.StoringWorkspace? then Some(st.(workspace := Some(p.id), outputs := []))
    else if p.AdoptingRun? then Some(st.(run := Some(p.latest)))
    else if p.StoringRunStatus? then Some(st.(runStatus := p.status))
    else if p.StoringOutputs? then Some(st.(outputs := p.outputs))
    else if p.StoringVersion? then Some(st.(version := Some(p.version)))
    else if p == ClearingVersion then Some(st.(version := None))
    else if p.RecordingRun? then Some(st.(run := Some(p.run), runStatus := p.status))
    else None
  }

  function AfterStatus(s: Sys, before: Sys): Sys {
    var p := before.phase;
    if p.StoringWorkspace? then HaveStored(s, p.current)
    else if p.AdoptingRun? then HaveAdopted(s)
    else if p.StoringOutputs? then s.(phase := PublishingSecret)
    else if p.StoringVersion? then s.(phase := ReadingVersion)
    else if p == ClearingVersion then s.(phase := CreatingRun(before.mem.status.version))
    else Return(s, Requeue)
  }

  /** What a persisted status write means for the server-side records, and a missed one for the count of losses. */
  function Note(s: Sys, persisted: bool): Sys {
    if s.phase.RecordingRun? && s.phase.run < |s.cloud.runs| then
      var run := s.phase.run;
      if persisted then s.(cloud := SetRun(s.cloud, run, s.cloud.runs[run].(recorded := true)))
      else s.(lost := s.lost + 1)
    else if s.phase.StoringVersion? && s.phase.version < |s.cloud.versions| && persisted then
      var v := s.phase.version;
      s.(cloud := SetVersion(s.cloud, v, s.cloud.versions[v].(stored := true)))
    else s
  }

  /** The finalizers that the next write is to leave. */
  function NextFinalizers(s: Sys): Option<seq<string>> {
    if s.phase == AddingFinalizer then Some(s.mem.finalizers + [FINALIZER])
    else if s.phase.RemovingFinalizer? then Some(Finalizers.Left(s.mem.finalizers, FINALIZER))
    else None
  }

  /****** Which steps there are ******/

  predicate DeletionCall(l: Label) {
    || l.CheckExistence? || l.CheckAgain? || l.ListRuns? || l.ForceCancel? || l.ReadCurrentRun?
    || l.CreateDestroyRun? || l.Poll? || l.DeleteWorkspace?
  }

  predicate SetupCall(l: Label) {
    l.ReadWorkspace? || l.CreateWorkspace? || l.Notify? || l.ReadRun? || l.ReadState? || l.PutSecret?
  }

  predicate SyncCall(l: Label) { l.PutConfig? || l.SyncVariables? || l.SyncTriggers? }

  predicate RunCall(l: Label) { l.ListVersions? || l.CreateVersion? || l.Upload? || l.ReadVersion? || l.CreateRun? }

  /** Calls that read the object or write it. */
  predicate ObjectCall(l: Label) { l.Fetch? || l.WriteStatus? || l.WriteFinalizers? }

  predicate ServerMove(l: Label) { l.Advance? || l.Process? || l.Ingress? || l.Change? }

  predicate OperatorCall(l: Label) { DeletionCall(l) || SetupCall(l) || SyncCall(l) || RunCall(l) || ObjectCall(l) }

  /** The call is the one that the operator is about to make, or the event is one that this moment allows. */
  predicate At(s: Sys, l: Label) {
    if DeletionCall(l) then AtDeletionCall(s, l)
    else if SetupCall(l) then AtSetupCall(s, l)
    else if SyncCall(l) then AtSyncCall(s, l)
    else if RunCall(l) then AtRunCall(s, l)
    else if ObjectCall(l) then AtObjectCall(s, l)
    else if ServerMove(l) then AtServerMove(s, l)
    else AtUserStep(s, l)
  }

  predicate AtUserStep(s: Sys, l: Label) {
    if l.Edit? then s.live.Some? && FINALIZER !in l.before && FINALIZER !in l.after
    else if l.Mark? then s.live.Some?
    else if l.Drift? then s.phase == Idle
    else true
  }

  predicate AtDeletionCall(s: Sys, l: Label) {
    if l.CheckExistence? then s.phase == CheckingExistence
    else if l.CheckAgain? then s.phase == CheckingAgain
    else if l.ListRuns? then s.phase == ListingRuns
    else if l.ForceCancel? then s.phase.Cancelling? && s.phase.todo != []
    else if l.ReadCurrentRun? then s.phase.ReadingCurrentRun?
    else if l.CreateDestroyRun? then s.phase.CreatingDestroyRun? && l.status != NoStatus
    else if l.Poll? then s.phase.Polling?
    else s.phase.DeletingWorkspace?
  }

  predicate AtSetupCall(s: Sys, l: Label) {
    if l.ReadWorkspace? then s.phase == ReadingWorkspace
    else if l.CreateWorkspace? then s.phase == CreatingWorkspace
    else if l.Notify? then s.phase == Notifying
    else if l.ReadRun? then s.phase == ReadingRun
    else if l.ReadState? then s.phase == ReadingState
    else s.phase == PublishingSecret
  }

  predicate AtSyncCall(s: Sys, l: Label) {
    if l.PutConfig? then s.phase == Templating
    else if l.SyncVariables? then s.phase.SyncingVariables?
    else s.phase.SyncingTriggers?
  }

  predicate AtRunCall(s: Sys, l: Label) {
    if l.ListVersions? then s.phase == ListingVersions
    else if l.CreateVersion? then s.phase == CreatingVersion
    else if l.Upload? then s.phase.Uploading?
    else if l.ReadVersion? then s.phase == ReadingVersion
    else l.CreateRun? && s.phase.CreatingRun? && l.status != NoStatus
  }

  predicate AtObjectCall(s: Sys, l: Label) {
    if l.Fetch? then s.phase == Idle
    else if l.WriteStatus? then NextStatus(s) == Some(l.written)
    else l.WriteFinalizers? && NextFinalizers(s) == Some(l.finalizers)
  }

  predicate AtServerMove(s: Sys, l: Label) {
    if l.Advance? then
      && |l.statuses| == |s.cloud.runs|
      && forall i :: 0 <= i < |l.statuses| ==> MayBecome(s.cloud.runs[i].status, l.statuses[i])
    else if l.Process? then
      && l.version < |s.cloud.versions|
      && s.cloud.versions[l.version].given && s.cloud.versions[l.version].status == Waiting
    else if l.Change? then exists i :: 0 <= i < |s.cloud.runs| && IsPending(s.cloud.runs[i].status)
    else true
  }

  /** What an answer may be, and how far the changes of a collection may have come. */
  ghost predicate Allowed(s: Sys, l: Label) {
    if l.Notify? then AllowedNotify(s, l.listed, l.relisted, l.calls, l.ok)
    else if l.ReadState? then
      if s.mem.status.run.None? then l.o.Done? && l.outputs == []
      else l.o.Done? ==> Outputs.Canonical(l.outputs, s.cloud.state)
    else if l.SyncVariables? then AllowedVariables(s, l.shown, l.changes, l.ok)
    else if l.SyncTriggers? then AllowedTriggers(s, l.inbound, l.edits, l.ok)
    else if l.Drift? then
      && Variables.ValidRemote(l.variables) && Variables.DistinctKeys(l.variables)
      && RunTriggers.ValidRemote(l.triggers) && Notifications.ValidRemote(l.notifications)
    else true
  }

  /** The calls may stop anywhere; they stop before the creates if the second listing fails. */
  ghost predicate MayNotify(spec: seq<Notifications.Notification>, r: Notifications.Remote,
                            listed: seq<Notifications.Listed>, relisted: seq<Notifications.Listed>,
                            calls: seq<Notifications.Call>, ok: bool) {
    && Notifications.Lists(listed, r)
    && (calls <= Notifications.Deletes(spec, listed) ||
        (Notifications.Listings(spec, listed, relisted, r) && calls <= Notifications.Plan(spec, listed, relisted)))
    && (ok ==> Notifications.Listings(spec, listed, relisted, r) && calls == Notifications.Plan(spec, listed, relisted))
  }

  ghost predicate AllowedNotify(s: Sys, listed: seq<Notifications.Listed>, relisted: seq<Notifications.Listed>,
                                calls: seq<Notifications.Call>, ok: bool) {
    MayNotify(s.mem.spec.notifications, s.cloud.held.notifications, listed, relisted, calls, ok)
  }

  /** The server does not take a second variable with the same key. */
  ghost predicate AllowedVariables(s: Sys, shown: seq<Variables.Listed>, changes: seq<Variables.Call>, ok: bool) {
    match Wanted(s)
    case None => changes == [] && !ok
    case Some(wanted) =>
      var plan := Variables.Plan(wanted, s.cluster.sources.mount, shown);
      && Variables.Lists(shown, s.cloud.held.variables)
      && Variables.DistinctKeys(Variables.ApplyAll(s.cloud.held.variables, changes))
      && changes <= plan.calls && (ok ==> plan.ok && changes == plan.calls)
  }

  predicate MayTrigger(spec: seq<string>, r: RunTriggers.Remote, inbound: seq<RunTriggers.Listed>,
                             edits: seq<RunTriggers.Call>, ok: bool) {
    && RunTriggers.Lists(inbound, r)
    && edits <= RunTriggers.Plan(spec, inbound) && (ok ==> edits == RunTriggers.Plan(spec, inbound))
  }

  predicate AllowedTriggers(s: Sys, inbound: seq<RunTriggers.Listed>, edits: seq<RunTriggers.Call>, ok: bool) {
    MayTrigger(s.mem.spec.runTriggers, s.cloud.held.triggers, inbound, edits, ok)
  }

  /** The steps that are possible. */
  ghost predicate Enabled(s: Sys, l: Label) { At(s, l) && Allowed(s, l) }

  /****** What each step does ******/

  function Step(s: Sys, l: Label): Sys {
    if DeletionCall(l) then DeletionStep(s, l)
    else if SetupCall(l) then SetupStep(s, l)
    else if SyncCall(l) then SyncStep(s, l)
    else if RunCall(l) then RunStep(s, l)
    else if ObjectCall(l) then ObjectStep(s, l)
    else if ServerMove(l) then ServerStep(s, l)
    else UserStep(s, l)
  }

  function DeletionStep(s: Sys, l: Label): Sys {
    if l.CheckExistence? then AfterCheck(s, l.o)
    else if l.CheckAgain? then AfterSecondCheck(s, l.o)
    else if l.ListRuns? then AfterListRuns(s, l.o)
    else if l.ForceCancel? then AfterForceCancel(s, l.o)
    else if l.ReadCurrentRun? then AfterReadCurrentRun(s, l.o)
    else if l.CreateDestroyRun? then AfterCreateDestroyRun(s, l.status, l.o)
    else if l.Poll? then AfterPoll(s, l.o)
    else if l.DeleteWorkspace? then AfterDeleteWorkspace(s, l.o)
    else s
  }

  function SetupStep(s: Sys, l: Label): Sys {
    if l.ReadWorkspace? then AfterReadWorkspace(s, l.o)
    else if l.CreateWorkspace? then AfterCreateWorkspace(s, l.o)
    else if l.Notify? then AfterNotify(s, l.calls, l.ok)
    else if l.ReadRun? then AfterReadRun(s, l.o)
    else if l.ReadState? then AfterReadState(s, l.outputs, l.o)
    else if l.PutSecret? then AfterPutSecret(s, l.o)
    else s
  }

  function SyncStep(s: Sys, l: Label): Sys {
    if l.PutConfig? then AfterPutConfig(s, l.o)
    else if l.SyncVariables? then AfterSyncVariables(s, l.shown, l.changes, l.ok)
    else if l.SyncTriggers? then AfterSyncTriggers(s, l.inbound, l.edits, l.ok)
    else s
  }

  function RunStep(s: Sys, l: Label): Sys {
    if l.ListVersions? then AfterListVersions(s, l.o)
    else if l.CreateVersion? then AfterCreateVersion(s, l.o)
    else if l.Upload? then AfterUpload(s, l.o)
    else if l.ReadVersion? then AfterReadVersion(s, l.o)
    else if l.CreateRun? then AfterCreateRun(s, l.status, l.o)
    else s
  }

  function ObjectStep(s: Sys, l: Label): Sys {
    if l.Fetch? then AfterFetch(s, l.o)
    else if l.WriteStatus? then AfterWriteStatus(s, l.written, l.o)
    else if l.WriteFinalizers? then AfterWriteFinalizers(s, l.finalizers, l.o)
    else s
  }

  function ServerStep(s: Sys, l: Label): Sys {
    if l.Advance? then AfterAdvance(s, l.statuses)
    else if l.Process? then AfterProcess(s, l.version, l.result)
    else if l.Ingress? then AfterIngress(s)
    else if l.Change? then AfterChange(s, l.state)
    else s
  }

  function UserStep(s: Sys, l: Label): Sys {
    if l.Edit? then AfterEdit(s, l.spec, l.before, l.after)
    else if l.Mark? then AfterMark(s)
    else if l.Drift? then AfterDrift(s, l.variables, l.triggers, l.notifications, l.text, l.data, l.sources)
    else AfterCrash(s)
  }

  function AfterFetch(s: Sys, o: Outcome): Sys {
    if !o.Done? then Return(s, Error)
    else if s.live.None? then Return(s, Nothing)
    else s.(mem := s.live.value, phase := if s.live.value.deleting then CheckingExistence else ReadingWorkspace)
  }

  /** The first look: an id that was never set is an error, a missing workspace is not. */
  function AfterCheck(s: Sys, o: Outcome): Sys {
    if !o.Done? || s.mem.status.workspace.None? then Return(s, Error)
    else s.(phase := if FINALIZER in s.mem.finalizers then CheckingAgain else RemovingFinalizer(NotOurs))
  }

  /** The second look: any error is taken for a missing workspace. */
  function AfterSecondCheck(s: Sys, o: Outcome): Sys {
    s.(phase := if !o.Done? then RemovingFinalizer(Unsure)
                else if s.cloud.workspace == s.mem.status.workspace then ListingRuns
                else RemovingFinalizer(Absent))
  }

  function AfterListRuns(s: Sys, o: Outcome): Sys {
    Read(s, o, s.(phase := AfterCancel(|s.cloud.runs|, PendingRuns(s.cloud.runs))))
  }

  /** The positions of the runs that are pending. */
  function PendingRuns(runs: seq<Run>): (todo: seq<nat>)
    ensures forall i :: 0 <= i < |runs| && IsPending(runs[i].status) ==> i in todo
    ensures forall i :: i in todo ==> i < |runs|
  {
    if runs == [] then []
    else
      var before := PendingRuns(runs[..|runs| - 1]);
      if IsPending(runs[|runs| - 1].status) then before + [|runs| - 1] else before
  }

  function AfterCancel(listed: nat, todo: seq<nat>): Phase {
    if todo == [] then ReadingCurrentRun(listed) else Cancelling(listed, todo)
  }

  function AfterForceCancel(s: Sys, o: Outcome): Sys {
    if !s.phase.Cancelling? || s.phase.todo == [] || s.phase.todo[0] >= |s.cloud.runs| then s
    else
      var i := s.phase.todo[0];
      var t := if o.Effective() then s.(cloud := SetRun(s.cloud, i, s.cloud.runs[i].(cancelled := true))) else s;
      if o.Done? then t.(phase := AfterCancel(s.phase.listed, s.phase.todo[1..])) else Return(t, Error)
  }

  function AfterReadCurrentRun(s: Sys, o: Outcome): Sys {
    if !s.phase.ReadingCurrentRun? then s
    else if !o.Done? || s.cloud.workspace != s.mem.status.workspace then Return(s, Error)
    else
      s.(phase := if s.cloud.runs == [] then DeletingWorkspace(s.phase.listed, None)
                  else CreatingDestroyRun(s.phase.listed))
  }

  function AfterCreateDestroyRun(s: Sys, status: RunStatus, o: Outcome): Sys {
    if !s.phase.CreatingDestroyRun? then s
    else
      var run := Run(Destroy, status, false, false);
      var t := if o.Effective() then s.(cloud := s.cloud.(runs := s.cloud.runs + [run])) else s;
      if o.Done? then t.(phase := Polling(s.phase.listed, |s.cloud.runs|)) else Return(t, Error)
  }

  function AfterPoll(s: Sys, o: Outcome): Sys {
    if !s.phase.Polling? || s.phase.run >= |s.cloud.runs| then s
    else if !o.Done? || IsError(s.cloud.runs[s.phase.run].status) then Return(s, Error)
    else if IsPending(s.cloud.runs[s.phase.run].status) then s
    else s.(phase := DeletingWorkspace(s.phase.listed, Some(s.phase.run)))
  }

  /** The answer to the deletion of the workspace is only logged. */
  function AfterDeleteWorkspace(s: Sys, o: Outcome): Sys {
    if !s.phase.DeletingWorkspace? then s
    else
      var gone := o.Effective() && s.cloud.workspace == s.mem.status.workspace;
      var t := if gone then s.(cloud := s.cloud.(workspace := None)) else s;
      t.(phase := RemovingFinalizer(TornDown(s.phase.listed, s.phase.destroyed)))
  }

  function AfterReadWorkspace(s: Sys, o: Outcome): Sys {
    Read(s, o, if s.cloud.workspace.None? then s.(phase := CreatingWorkspace)
               else HaveWorkspace(s, s.cloud.workspace.value, CurrentRun(s.cloud)))
  }

  function AfterCreateWorkspace(s: Sys, o: Outcome): Sys {
    var id := s.cloud.issued;
    var t := if o.Effective() then s.(cloud := s.cloud.(workspace := Some(id), issued := id + 1)) else s;
    if o.Done? then HaveWorkspace(t, id, None) else Return(t, Error)
  }

  function AfterWriteStatus(s: Sys, status: Status, o: Outcome): Sys {
    var t := Note(Written(s, o, s.mem.(status := status)), Persists(s, o));
    if Succeeds(s, o) then AfterStatus(t, s) else Return(t, Error)
  }

  function AfterWriteFinalizers(s: Sys, finalizers: seq<string>, o: Outcome): Sys {
    var t := Written(s, o, s.mem.(finalizers := finalizers));
    if !Succeeds(s, o) then Return(t, Error)
    else if s.phase.RemovingFinalizer? then Return(t, Nothing)
    else t.(phase := Notifying)
  }

  function AfterNotify(s: Sys, calls: seq<Notifications.Call>, ok: bool): Sys {
    var t := Holding(s, s.cloud.held.(notifications := Notifications.ApplyAll(s.cloud.held.notifications, calls)));
    if ok then HaveNotified(t) else Return(t, Error)
  }

  /** A missing run id reads as the empty status without a call. */
  function AfterReadRun(s: Sys, o: Outcome): Sys {
    if s.mem.status.run.Some? && (!o.Done? || s.mem.status.run.value >= |s.cloud.runs|) then Return(s, Error)
    else
      var status := if s.mem.status.run.None? then NoStatus else s.cloud.runs[s.mem.status.run.value].status;
      if status != s.mem.status.runStatus then s.(phase := StoringRunStatus(status)) else Return(s, Requeue)
  }

  function AfterReadState(s: Sys, outputs: seq<Outputs.OutputStatus>, o: Outcome): Sys {
    Read(s, o, s.(phase := if outputs != s.mem.status.outputs then StoringOutputs(outputs) else PublishingSecret))
  }

  function AfterPutSecret(s: Sys, o: Outcome): Sys {
    var data := Outputs.OutputsToMap(s.mem.status.outputs);
    var t := if o.Effective() then s.(cluster := s.cluster.(secret := Some(data))) else s;
    if o.Done? then HavePublished(t) else Return(t, Error)
  }

  function AfterPutConfig(s: Sys, o: Outcome): Sys {
    var t := if o.Effective() then s.(cluster := s.cluster.(config := Text(s))) else s;
    if o.Done? then t.(phase := SyncingVariables(s.cluster.config != Text(s))) else Return(t, Error)
  }

  function AfterSyncVariables(s: Sys, shown: seq<Variables.Listed>, changes: seq<Variables.Call>, ok: bool): Sys {
    var t := Holding(s, s.cloud.held.(variables := Variables.ApplyAll(s.cloud.held.variables, changes)));
    if ok && s.phase.SyncingVariables? && Wanted(s).Some? then
      t.(phase := SyncingTriggers(s.phase.updated ||
                                  Variables.Plan(Wanted(s).value, s.cluster.sources.mount, shown).updated))
    else Return(t, Error)
  }

  function AfterSyncTriggers(s: Sys, inbound: seq<RunTriggers.Listed>, edits: seq<RunTriggers.Call>, ok: bool): Sys {
    var t := Holding(s, s.cloud.held.(triggers := RunTriggers.ApplyAll(s.cloud.held.triggers, edits)));
    if ok && s.phase.SyncingTriggers? then
      HaveSynced(t, s.phase.updated || RunTriggers.Creates(s.mem.spec.runTriggers, inbound) != [])
    else Return(t, Error)
  }

  function AfterListVersions(s: Sys, o: Outcome): Sys {
    Read(s, o, if s.cloud.repository then s.(phase := CreatingRun(None)) else Return(s, Requeue))
  }

  function AfterCreateVersion(s: Sys, o: Outcome): Sys {
    var id := |s.cloud.versions|;
    var version := Version(Waiting, false, false, false);
    var t := if o.Effective() then s.(cloud := s.cloud.(versions := s.cloud.versions + [version])) else s;
    if o.Done? then t.(phase := Uploading(id)) else Return(t, Error)
  }

  function AfterUpload(s: Sys, o: Outcome): Sys {
    if !s.phase.Uploading? || s.phase.version >= |s.cloud.versions| then s
    else
      var v := s.phase.version;
      var t := if o.Effective() then s.(cloud := SetVersion(s.cloud, v, s.cloud.versions[v].(given := true))) else s;
      if o.Done? then t.(phase := StoringVersion(v)) else Return(t, Error)
  }

  function AfterReadVersion(s: Sys, o: Outcome): Sys {
    if s.mem.status.version.None? || !o.Done? || s.mem.status.version.value >= |s.cloud.versions| then Return(s, Error)
    else
      var v := s.mem.status.version.value;
      if s.cloud.versions[v].status != Uploaded then Return(s, Requeue)
      else s.(cloud := SetVersion(s.cloud, v, s.cloud.versions[v].(seen := true)), phase := ClearingVersion)
  }

  /** A run whose creation the caller never learnt of is lost to the status. */
  function AfterCreateRun(s: Sys, status: RunStatus, o: Outcome): Sys {
    if !s.phase.CreatingRun? then s
    else
      var run := Run(Apply(s.phase.cleared), status, false, false);
      var t := if o.Effective() then s.(cloud := s.cloud.(runs := s.cloud.runs + [run])) else s;
      if o.Done? then t.(phase := RecordingRun(|s.cloud.runs|, status))
      else Return(if o.Lost? then t.(lost := t.lost + 1) else t, Error)
  }

  /** The operator stops in the middle; what it had not written is forgotten. */
  function AfterCrash(s: Sys): Sys { Return(Note(s, false), Nothing) }

  function Advanced(runs: seq<Run>, statuses: seq<RunStatus>): (r: seq<Run>)
    ensures |r| == |runs|
    ensures |statuses| == |runs| ==> forall i :: 0 <= i < |runs| ==> r[i] == runs[i].(status := statuses[i])
  {
    if |statuses| != |runs| then runs
    else seq(|runs|, i requires 0 <= i < |runs| => runs[i].(status := statuses[i]))
  }

  function AfterAdvance(s: Sys, statuses: seq<RunStatus>): Sys {
    s.(cloud := s.cloud.(runs := Advanced(s.cloud.runs, statuses)))
  }

  function AfterProcess(s: Sys, v: nat, result: VersionStatus): Sys {
    if v < |s.cloud.versions| then s.(cloud := SetVersion(s.cloud, v, s.cloud.versions[v].(status := result))) else s
  }

  /** A VCS repository delivers its first configuration version. */
  function AfterIngress(s: Sys): Sys { s.(cloud := s.cloud.(repository := true)) }

  /** A run that is under way changes the state. */
  function AfterChange(s: Sys, state: map<string, string>): Sys { s.(cloud := s.cloud.(state := state)) }

  /** Users may change the spec and the finalizers of others. */
  function AfterEdit(s: Sys, spec: Spec, before: seq<string>, after: seq<string>): Sys {
    if s.live.None? then s
    else
      var obj := s.live.value;
      var finalizers := before + (if FINALIZER in obj.finalizers then [FINALIZER] else []) + after;
      s.(live := Kept(obj.(spec := spec, finalizers := finalizers, revision := obj.revision + 1)))
  }

  /** A user asks for the deletion of the object. */
  function AfterMark(s: Sys): Sys {
    if s.live.None? then s
    else
      var obj := s.live.value;
      s.(live := Kept(obj.(deleting := true, revision := obj.revision + 1)))
  }

  /** Between two calls anyone may edit what the operator keeps in step. */
  function AfterDrift(s: Sys, variables: Variables.Remote, triggers: RunTriggers.Remote,
                      notifications: Notifications.Remote, text: Option<string>,
                      data: Option<map<string, string>>, sources: Sources): Sys {
    var cluster := s.cluster.(config := text, secret := data, sources := sources);
    Holding(s, Collections(variables, triggers, notifications)).(cluster := cluster)
  }
}

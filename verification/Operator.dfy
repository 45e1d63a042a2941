/**
 Reconcile as the code runs it (workspacehelper/workspace_helper.go, tfc_run.go): methods that change the
 object in memory, call the APIs and write the object back, while the server and users go on.

 Every execution, to whatever point it comes, is a run of the machine: each API call is the step that the
 machine is about to make, each write of the object carries what the machine has it write, and what Reconcile
 returns is what the machine records.  So all that is shown of runs of the machine holds of the code.
 */
module Operator {
  import opened Options
  import opened Outcomes
  import opened Runs
  import opened Workspace
  import opened Machine
  import opened MachineInvariants
  import opened Safety
  import Calm
  import Finalizers
  import Notifications
  import Outputs
  import Quiescence
  import RunTriggers
  import Template
  import Variables
  import VariableSync

  /** How often the object was read. */
  function Fetches(labels: seq<Label>): nat {
    if labels == [] then 0 else Fetches(labels[..|labels| - 1]) + if labels[|labels| - 1].Fetch? then 1 else 0
  }

  lemma FetchesOneMore(labels: seq<Label>, l: Label)
    ensures Fetches(labels + [l]) == Fetches(labels) + if l.Fetch? then 1 else 0
  {
    assert (labels + [l])[..|labels|] == labels;
  }

  lemma RunExtends(states: seq<Sys>, labels: seq<Label>, t: Sys, l: Label)
    requires IsRun(states, labels) && Enabled(states[|labels|], l) && t == Step(states[|labels|], l)
    ensures IsRun(states + [t], labels + [l])
  {
    var all, steps := states + [t], labels + [l];
    forall i | 0 <= i < |steps| ensures StepAt(all, steps, i) {
      if i < |labels| {
        assert StepAt(states, labels, i);
        assert all[i] == states[i] && all[i + 1] == states[i + 1] && steps[i] == labels[i];
      }
    }
  }

  /** How far the run had come when the current call of Reconcile began, and how many calls have read the object. */
  datatype Calls = Calls(past: seq<Sys>, before: seq<Label>, count: nat)

  /** What has happened so far, and the world as it is now. */
  datatype History = History(states: seq<Sys>, labels: seq<Label>, calls: Calls, now: Sys) {
    ghost predicate IsOfMachine() {
      && IsRun(states, labels) && Init(states[0]) && states[|labels|] == now
      && calls.past <= states && calls.before <= labels && calls.count == Fetches(labels)
    }
  }

  /** What has happened is a run of the machine from the start. */
  type Lived = h: History | h.IsOfMachine() ghost witness Beginning(NewWorld())

  function Beginning(s: Sys): History { History([s], [], Calls([s], [], 0), s) }

  lemma BeginningIsARun(s: Sys)
    requires Init(s)
    ensures Beginning(s).IsOfMachine()
  {
  }

  /** A world with nothing in it but the object. */
  function NewWorld(): Sys {
    var obj := Object(0, Spec("", true, None, [], [], [], []), false, [], Status(None, None, NoStatus, None, []));
    var held := Collections(Variables.Remote(map[], 0), RunTriggers.Remote(map[], 0), Notifications.Remote(map[], 0));
    var cluster := Cluster(None, None, Sources(References(map[], map[]), map[]), "", "");
    Sys(Idle, obj, Nothing, Some(obj), Cloud(None, 0, [], [], false, held, map[]), cluster, 0)
  }

  ghost function Extended(h: Lived, l: Label, t: Sys): (k: Lived)
    requires Enabled(h.now, l) && t == Step(h.now, l)
    ensures k.now == t && k.calls == h.calls.(count := h.calls.count + if l.Fetch? then 1 else 0)
  {
    RunExtends(h.states, h.labels, t, l);
    FetchesOneMore(h.labels, l);
    History(h.states + [t], h.labels + [l], h.calls.(count := Fetches(h.labels + [l])), t)
  }

  /** A new call of Reconcile begins. */
  ghost function CallBegins(h: Lived): (k: Lived)
    ensures k == h.(calls := Calls(h.states, h.labels, h.calls.count))
  {
    h.(calls := Calls(h.states, h.labels, h.calls.count))
  }

  class WorkspaceHelper {
    /** The world, and of the operator what a crash takes away: the object as last read or written. */
    var sys: Sys
    /** The object in memory; its fields change before they are written back. */
    var instance: Object
    /** After so many polls of a destroy run, the operator is taken to be stopped. */
    const patience: nat
    var stopped: bool
    ghost var history: Lived

    constructor (sys: Sys, patience: nat)
      requires Init(sys)
      ensures Valid() && this.sys == sys && this.patience == patience
    {
      BeginningIsARun(sys);
      this.sys, this.patience, instance, stopped := sys, patience, sys.mem, false;
      history := Beginning(sys);
    }

    /** What has happened so far is a run of the machine from the start. */
    ghost predicate Valid()
      reads `sys, `history
    {
      history.now == sys
    }

    /** The call is at this point, with nothing in memory that is not written. */
    ghost predicate Reached(p: Phase)
      reads `sys, `instance, `history
    {
      Valid() && sys.phase == p && instance == sys.mem
    }

    /** The call has come to its end. */
    ghost predicate Ended(r: Result)
      reads `sys, `history
    {
      Valid() && sys.phase == Idle && sys.returned == r
    }

    method Take(t: Sys, ghost l: Label)
      requires Valid() && Enabled(sys, l) && t == Step(sys, l) && !l.Fetch?
      modifies `sys, `history
      ensures Valid() && sys == t && history.calls == old(history.calls)
    {
      history := Extended(history, l, t);
      sys := t;
    }

    method TakeDeletionCall(t: Sys, l: Label)
      requires Valid() && DeletionCall(l) && AtDeletionCall(sys, l) && t == DeletionStep(sys, l)
      modifies `sys, `history
      ensures Valid() && sys == t && history.calls == old(history.calls)
    {
      Take(t, l);
    }

    method TakeSetupCall(t: Sys, ghost l: Label)
      requires Valid() && SetupCall(l) && AtSetupCall(sys, l) && Allowed(sys, l) && t == SetupStep(sys, l)
      modifies `sys, `history
      ensures Valid() && sys == t && history.calls == old(history.calls)
    {
      Take(t, l);
    }

    method TakeReadWorkspace(o: Outcome)
      requires Valid() && sys.phase == ReadingWorkspace
      modifies `sys, `history
      ensures Valid() && history.calls == old(history.calls) && WorkspaceRead(old(sys), o, sys)
    {
      ReadWorkspaceLeads(sys, o);
      TakeSetupCall(AfterReadWorkspace(sys, o), ReadWorkspace(o));
    }

    method TakeReadRun(o: Outcome)
      requires Valid() && sys.phase == ReadingRun
      modifies `sys, `history
      ensures Valid() && history.calls == old(history.calls) && RunRead(old(sys), o, sys)
    {
      ReadRunLeads(sys, o);
      TakeSetupCall(AfterReadRun(sys, o), ReadRun(o));
    }

    method TakeNotify(remote: Notifications.Remote, ok: bool, ghost listed: seq<Notifications.Listed>,
                      ghost relisted: seq<Notifications.Listed>, ghost done: seq<Notifications.Call>)
      requires Valid() && sys.phase == Notifying && AllowedNotify(sys, listed, relisted, done, ok)
      requires remote == Notifications.ApplyAll(sys.cloud.held.notifications, done)
      modifies `sys, `history
      ensures Valid() && history.calls == old(history.calls) && sys.mem == old(sys.mem)
      ensures if ok then sys.phase == HaveNotified(sys).phase && (sys.phase == Idle ==> sys.returned == Error)
              else sys.phase == Idle && sys.returned == Error
    {
      var t := Notified(sys, remote, ok);
      NotifyLeads(sys, listed, relisted, done, ok);
      TakeSetupCall(t, Notify(listed, relisted, done, ok));
    }

    method TakeSyncTriggers(remote: RunTriggers.Remote, ok: bool, soFar: bool, created: bool,
                            ghost listed: seq<RunTriggers.Listed>, ghost done: seq<RunTriggers.Call>)
      requires Valid() && sys.phase == SyncingTriggers(soFar) && AllowedTriggers(sys, listed, done, ok)
      requires remote == RunTriggers.ApplyAll(sys.cloud.held.triggers, done)
      requires ok ==> created == (RunTriggers.Creates(sys.mem.spec.runTriggers, listed) != [])
      modifies `sys, `history
      ensures Valid() && history.calls == old(history.calls) && sys.mem == old(sys.mem)
      ensures if ok then sys.phase == HaveSynced(sys, soFar || created).phase &&
              (sys.phase == Idle ==> sys.returned == Settled)
              else sys.phase == Idle && sys.returned == Error
    {
      var t := Triggered(sys, remote, ok, soFar || created);
      TriggersLead(sys, soFar, listed, done, ok);
      TakeSyncCall(t, SyncTriggers(listed, done, ok));
    }

    method TakeSyncCall(t: Sys, ghost l: Label)
      requires Valid() && SyncCall(l) && AtSyncCall(sys, l) && Allowed(sys, l) && t == SyncStep(sys, l)
      modifies `sys, `history
      ensures Valid() && sys == t && history.calls == old(history.calls)
    {
      Take(t, l);
    }

    method TakeRunCall(t: Sys, l: Label)
      requires Valid() && RunCall(l) && AtRunCall(sys, l) && t == RunStep(sys, l)
      modifies `sys, `history
      ensures Valid() && sys == t && history.calls == old(history.calls)
    {
      Take(t, l);
    }

    method TakeWriteStatus(status: Status, o: Outcome)
      requires Valid() && NextStatus(sys) == Some(status)
      modifies `sys, `history
      ensures Valid() && history.calls == old(history.calls) &&
              StatusWritten(old(sys), status, Succeeds(old(sys), o), sys)
    {
      ghost var s := sys;
      Take(AfterWriteStatus(sys, status, o), WriteStatus(status, o));
      WriteOfStatus(s, status, o);
    }

    method TakeWriteFinalizers(finalizers: seq<string>, o: Outcome)
      requires Valid() && NextFinalizers(sys) == Some(finalizers)
      modifies `sys, `history
      ensures Valid() && sys == AfterWriteFinalizers(old(sys), finalizers, o) && history.calls == old(history.calls)
    {
      Take(AfterWriteFinalizers(sys, finalizers, o), WriteFinalizers(finalizers, o));
    }

    method TakeFetch(o: Outcome)
      requires Valid() && sys.phase == Idle
      modifies `sys, `history
      ensures Valid() && sys == AfterFetch(old(sys), o)
      ensures history.calls == old(history.calls).(count := old(history.calls.count) + 1)
    {
      var t := Step(sys, Fetch(o));
      history := Extended(history, Fetch(o), t);
      sys := t;
    }

    /** What the server and users do before the next call arrives. */
    method Meanwhile()
      requires Valid()
      modifies `sys, `history
      ensures history.calls == old(history.calls)
      ensures Valid() && Waited(old(sys), sys)
    {
      var moves: seq<Label> := *;
      for i := 0 to |moves|
        invariant history.calls == old(history.calls) && Valid() && Waited(old(sys), sys)
      {
        if FromOutside(moves[i]) && Machine.At(sys, moves[i]) {
          OutsideWaits(sys, moves[i]);
          Take(Step(sys, moves[i]), moves[i]);
        }
      }
    }

    /** The call came to its end with an error, or the operator was stopped. */
    ghost predicate Failed()
      reads `sys, `stopped, `history
    {
      Valid() && sys.phase == Idle && (stopped || sys.returned == Error)
    }

    /****** Reading the object ******/

    method InitializeReconciliation() returns (found: bool, ok: bool)
      requires Valid() && sys.phase == Idle
      modifies `sys, `instance, `history
      ensures history.calls == old(history.calls).(count := old(history.calls.count) + 1)
      ensures !ok ==> Ended(Error)
      ensures ok && !found ==> Ended(Nothing)
      ensures ok && found ==> Reached(if instance.deleting then CheckingExistence else ReadingWorkspace)
    {
      Meanwhile();
      var o: Outcome := *;
      TakeFetch(o);
      ok, found, instance := o.Done?, sys.phase != Idle, sys.mem;
    }

    /****** Deletion ******/

    method CheckWorkspaceById() returns (ok: bool)
      requires Reached(CheckingExistence)
      modifies `sys, `history
      ensures history.calls == old(history.calls)
      ensures if ok then Reached(if FINALIZER in instance.finalizers then CheckingAgain else RemovingFinalizer(NotOurs))
              else Ended(Error)
    {
      Meanwhile();
      var o: Outcome := *;
      TakeDeletionCall(AfterCheck(sys, o), CheckExistence(o));
      ok := sys.phase != Idle;
    }

    method CheckWorkspaceAgain() returns (there: bool)
      requires Reached(CheckingAgain)
      modifies `sys, `history
      ensures history.calls == old(history.calls)
      ensures Valid() && instance == sys.mem
      ensures if there then sys.phase == ListingRuns else sys.phase.RemovingFinalizer?
    {
      Meanwhile();
      var o: Outcome := *;
      TakeDeletionCall(AfterSecondCheck(sys, o), CheckAgain(o));
      there := sys.phase == ListingRuns;
    }

    method ForceCancelRun()
      returns (ok: bool)
      requires Valid() && instance == sys.mem && sys.phase.Cancelling? && sys.phase.todo != []
      requires sys.phase.todo[0] < |sys.cloud.runs|
      modifies `sys, `history
      ensures history.calls == old(history.calls)
      ensures Valid() && instance == sys.mem && |sys.cloud.runs| == |old(sys).cloud.runs|
      ensures if ok then sys.phase == AfterCancel(old(sys).phase.listed, old(sys).phase.todo[1..]) else Ended(Error)
    {
      Meanwhile();
      var o: Outcome := *;
      TakeDeletionCall(AfterForceCancel(sys, o), ForceCancel(o));
      ok := o.Done?;
    }

    method ListTheRuns() returns (ok: bool, runs: seq<Run>)
      requires Reached(ListingRuns)
      modifies `sys, `history
      ensures history.calls == old(history.calls)
      ensures if ok then Valid() && instance == sys.mem && |sys.cloud.runs| == |runs| &&
              sys.phase == AfterCancel(|runs|, PendingRuns(runs))
              else Ended(Error)
    {
      Meanwhile();
      var o: Outcome := *;
      runs := sys.cloud.runs;
      TakeDeletionCall(AfterListRuns(sys, o), ListRuns(o));
      ok := o.Done?;
    }

    /** The call is about to cancel those of the listed runs that are pending, from the `i`-th on. */
    ghost predicate CancellingFrom(runs: seq<Run>, i: nat)
      requires i <= |runs|
      reads `sys, `instance, `history
    {
      && Valid() && instance == sys.mem && |sys.cloud.runs| == |runs|
      && sys.phase == AfterCancel(|runs|, PendingFrom(runs, i))
    }

    method CancelIfPending(run: Run, ghost runs: seq<Run>, ghost i: nat) returns (ok: bool)
      requires i < |runs| && run == runs[i] && CancellingFrom(runs, i)
      modifies `sys, `history
      ensures history.calls == old(history.calls)
      ensures if ok then CancellingFrom(runs, i + 1) else Ended(Error)
    {
      ok := true;
      if IsPending(run.status) {
        assert PendingFrom(runs, i) == [i] + PendingFrom(runs, i + 1);
        ok := ForceCancelRun();
      }
    }

    /** Force-cancels the runs that the listing shows pending. */
    method DeleteRuns() returns (ok: bool)
      requires Reached(ListingRuns)
      modifies `sys, `history
      ensures history.calls == old(history.calls)
      ensures if ok then Valid() && instance == sys.mem && sys.phase.ReadingCurrentRun? else Ended(Error)
    {
      var runs;
      ok, runs := ListTheRuns();
      if !ok {
        return;
      }
      PendingInOrder(runs, 0);
      for i := 0 to |runs|
        invariant CancellingFrom(runs, i) && history.calls == old(history.calls)
      {
        ok := CancelIfPending(runs[i], runs, i);
        if !ok {
          return;
        }
      }
    }

    method ReadTheCurrentRun() returns (there: bool, ok: bool)
      requires Valid() && instance == sys.mem && sys.phase.ReadingCurrentRun?
      modifies `sys, `history
      ensures history.calls == old(history.calls)
      ensures Valid() && instance == sys.mem
      ensures if !ok then Ended(Error)
              else if there then sys.phase.CreatingDestroyRun?
              else sys.phase.DeletingWorkspace?
    {
      Meanwhile();
      var o: Outcome := *;
      TakeDeletionCall(AfterReadCurrentRun(sys, o), ReadCurrentRun(o));
      ok, there := sys.phase != Idle, sys.phase.CreatingDestroyRun?;
    }

    method PollRun() returns (over: bool, ok: bool)
      requires Valid() && instance == sys.mem && sys.phase.Polling? && sys.phase.run < |sys.cloud.runs|
      modifies `sys, `history
      ensures history.calls == old(history.calls)
      ensures Valid() && instance == sys.mem && |sys.cloud.runs| == |old(sys).cloud.runs|
      ensures if !ok then Ended(Error) else if over then sys.phase.DeletingWorkspace? else sys.phase == old(sys).phase
    {
      Meanwhile();
      var o: Outcome := *;
      TakeDeletionCall(AfterPoll(sys, o), Poll(o));
      ok, over := sys.phase != Idle, !sys.phase.Polling?;
    }

    /** The loop that polls the destroy run until it is over. */
    method AwaitDestroy() returns (ok: bool)
      requires Valid() && instance == sys.mem && sys.phase.Polling? && sys.phase.run < |sys.cloud.runs|
      modifies `sys, `history, `stopped
      ensures history.calls == old(history.calls)
      ensures if ok then Valid() && instance == sys.mem && sys.phase.DeletingWorkspace? else Failed()
    {
      for i := 0 to patience
        invariant history.calls == old(history.calls) && Valid() && instance == sys.mem && sys.phase.Polling? &&
                  sys.phase.run < |sys.cloud.runs|
      {
        var over;
        over, ok := PollRun();
        if !ok || over {
          return;
        }
      }
      Stop();
      ok := false;
    }

    method Stop()
      requires Valid()
      modifies `sys, `history, `stopped
      ensures history.calls == old(history.calls)
      ensures Failed()
    {
      Take(Step(sys, Crash), Crash);
      stopped := true;
    }

    /** Destroys what the workspace manages, if it ever had a run. */
    method DeleteResources() returns (ok: bool)
      requires Valid() && instance == sys.mem && sys.phase.ReadingCurrentRun?
      modifies `sys, `history, `stopped
      ensures history.calls == old(history.calls)
      ensures if ok then Valid() && instance == sys.mem && sys.phase.DeletingWorkspace? else Failed()
    {
      var there;
      there, ok := ReadTheCurrentRun();
      if !ok || !there {
        return;
      }
      ok := CreateDestroy();
      if !ok {
        return;
      }
      ok := AwaitDestroy();
    }

    method CreateDestroy() returns (ok: bool)
      requires Valid() && instance == sys.mem && sys.phase.CreatingDestroyRun?
      modifies `sys, `history
      ensures history.calls == old(history.calls)
      ensures if ok then Valid() && instance == sys.mem && sys.phase.Polling? && sys.phase.run < |sys.cloud.runs|
              else Ended(Error)
    {
      Meanwhile();
      var o: Outcome := *;
      var status := NewStatus();
      TakeDeletionCall(AfterCreateDestroyRun(sys, status, o), CreateDestroyRun(status, o));
      ok := o.Done?;
    }

    method NewStatus() returns (status: RunStatus)
      ensures status != NoStatus
    {
      status := *;
      if status == NoStatus {
        status := Active("pending");
      }
    }

    method DeleteTheWorkspace()
      requires Valid() && instance == sys.mem && sys.phase.DeletingWorkspace?
      modifies `sys, `history
      ensures history.calls == old(history.calls)
      ensures Valid() && instance == sys.mem && sys.phase.RemovingFinalizer?
    {
      Meanwhile();
      var o: Outcome := *;
      TakeDeletionCall(AfterDeleteWorkspace(sys, o), DeleteWorkspace(o));
    }

    method FinalizeWorkspace() returns (ok: bool)
      requires Reached(CheckingAgain)
      modifies `sys, `history, `stopped
      ensures history.calls == old(history.calls)
      ensures if ok then Valid() && instance == sys.mem && sys.phase.RemovingFinalizer? else Failed()
    {
      var there := CheckWorkspaceAgain();
      if there {
        ok := DeleteRuns();
        if !ok {
          return;
        }
        ok := DeleteResources();
        if !ok {
          return;
        }
        DeleteTheWorkspace();
      }
      ok := true;
    }

    /** The finalizers without the operator's, by the removal inside the slice. */
    method WithoutFinalizer() returns (left: seq<string>)
      requires Valid() && instance == sys.mem && sys.phase.RemovingFinalizer?
      ensures left == Finalizers.Left(instance.finalizers, FINALIZER)
    {
      FinalizerIsSingle();
      Finalizers.RemovesSingle(instance.finalizers, FINALIZER);
      var list := instance.finalizers;
      var a := new string[|list|](i requires 0 <= i < |list| => list[i]);
      assert a[..] == list;
      var len, panicked := Finalizers.Remove(a, FINALIZER);
      left := a[..len];
    }

    lemma FinalizerIsSingle()
      requires Valid() && sys.phase != Idle
      ensures AtMostOnce(sys.mem.finalizers, FINALIZER)
    {
      InitIsSafe(history.states[0]);
      RunIsSafe(history.states, history.labels, |history.labels|);
    }

    /** Writes the object's finalizers. */
    method Update() returns (ok: bool)
      requires Valid() && NextFinalizers(sys) == Some(instance.finalizers)
      modifies `sys, `instance, `history
      ensures history.calls == old(history.calls)
      ensures if !ok then Ended(Error)
              else if old(sys).phase.RemovingFinalizer? then Ended(Nothing)
              else Reached(Notifying)
    {
      Meanwhile();
      var o: Outcome := *;
      ok := Succeeds(sys, o);
      TakeWriteFinalizers(instance.finalizers, o);
      instance := sys.mem;
    }

    method RemoveFinalizer() returns (ok: bool)
      requires Valid() && instance == sys.mem && sys.phase.RemovingFinalizer?
      modifies `sys, `instance, `history
      ensures history.calls == old(history.calls)
      ensures if ok then Ended(Nothing) else Ended(Error)
    {
      var left := WithoutFinalizer();
      instance := instance.(finalizers := left);
      ok := Update();
    }

    method DeleteWorkspaceAndFinalizer() returns (ok: bool)
      requires Reached(CheckingExistence)
      modifies `sys, `instance, `history, `stopped
      ensures history.calls == old(history.calls)
      ensures if ok then Ended(Nothing) else Failed()
    {
      ok := CheckWorkspaceById();
      if !ok {
        return;
      }
      var ours := Finalizers.Contains(instance.finalizers, FINALIZER);
      if ours {
        ok := FinalizeWorkspace();
        if !ok {
          return;
        }
      }
      ok := RemoveFinalizer();
    }

    method CondDeleteWorkspace() returns (deleted: bool, ok: bool)
      requires Reached(if instance.deleting then CheckingExistence else ReadingWorkspace)
      modifies `sys, `instance, `history, `stopped
      ensures history.calls == old(history.calls)
      ensures if !ok then Failed() else if deleted then Ended(Nothing) else Reached(ReadingWorkspace)
    {
      if !instance.deleting {
        return false, true;
      }
      ok := DeleteWorkspaceAndFinalizer();
      deleted := ok;
    }

    /****** The workspace ******/

    method ReadTheWorkspace() returns (found: bool, id: nat, current: Option<nat>, ok: bool)
      requires Reached(ReadingWorkspace)
      modifies `sys, `history
      ensures history.calls == old(history.calls)
      ensures if !ok then Ended(Error)
              else if !found then Reached(CreatingWorkspace)
              else Valid() && instance == sys.mem && HasWorkspace(sys, id, current)
    {
      var o: Outcome := *;
      found, current, ok := sys.cloud.workspace.Some?, CurrentRun(sys.cloud), o.Done?;
      id := if found then sys.cloud.workspace.value else 0;
      ghost var s := sys;
      TakeReadWorkspace(o);
      ReadComesTo(s, o, sys, found, id, current);
    }

    method CreateTheWorkspace() returns (id: nat, ok: bool)
      requires Reached(CreatingWorkspace)
      modifies `sys, `history
      ensures history.calls == old(history.calls)
      ensures if !ok then Ended(Error) else Valid() && instance == sys.mem && HasWorkspace(sys, id, None)
    {
      Meanwhile();
      var o: Outcome := *;
      id := sys.cloud.issued;
      TakeSetupCall(AfterCreateWorkspace(sys, o), CreateWorkspace(o));
      ok := o.Done?;
    }

    method CheckWorkspace() returns (id: nat, current: Option<nat>, ok: bool)
      requires Reached(ReadingWorkspace)
      modifies `sys, `history
      ensures history.calls == old(history.calls)
      ensures if !ok then Ended(Error) else Valid() && instance == sys.mem && HasWorkspace(sys, id, current)
    {
      Meanwhile();
      var found;
      found, id, current, ok := ReadTheWorkspace();
      if ok && !found {
        id, ok := CreateTheWorkspace();
        current := None;
      }
    }

    /** Writes the object's status. */
    method UpdateStatus() returns (ok: bool)
      requires Valid() && NextStatus(sys) == Some(instance.status) && instance == sys.mem.(status := instance.status)
      modifies `sys, `instance, `history
      ensures history.calls == old(history.calls)
      ensures if !ok then Ended(Error)
              else
                && Valid() && instance == sys.mem && instance.(revision := 0) == old(instance).(revision := 0)
                && GoesOn(old(sys).phase, sys)
                && sys.cluster == old(sys).cluster
    {
      Meanwhile();
      var o: Outcome := *;
      ok := Succeeds(sys, o);
      TakeWriteStatus(instance.status, o);
      instance := sys.mem;
    }

    method SetWorkspaceId(id: nat, current: Option<nat>) returns (ok: bool)
      requires Valid() && instance == sys.mem && HasWorkspace(sys, id, current)
      modifies `sys, `instance, `history
      ensures history.calls == old(history.calls)
      ensures if !ok then Ended(Error) else Reached(HaveStored(sys, current).phase)
    {
      ok := true;
      if instance.status.workspace != Some(id) {
        instance := instance.(status := instance.status.(workspace := Some(id), outputs := []));
        assert NextStatus(sys) == Some(instance.status);
        ok := UpdateStatus();
      }
    }

    method SetRunId(current: Option<nat>) returns (ok: bool)
      requires Reached(HaveStored(sys, current).phase)
      modifies `sys, `instance, `history
      ensures history.calls == old(history.calls)
      ensures if !ok then Ended(Error) else Reached(HaveAdopted(sys).phase)
    {
      ok := true;
      if instance.status.run.Some? && current.Some? && instance.status.run != current {
        instance := instance.(status := instance.status.(run := current));
        assert NextStatus(sys) == Some(instance.status);
        ok := UpdateStatus();
      }
    }

    method AddFinalizer() returns (ok: bool)
      requires Reached(AddingFinalizer)
      modifies `sys, `instance, `history
      ensures history.calls == old(history.calls)
      ensures if !ok then Ended(Error) else Reached(Notifying)
    {
      instance := instance.(finalizers := instance.finalizers + [FINALIZER]);
      ok := Update();
    }

    method ReconcileWorkspace() returns (ok: bool)
      requires Reached(ReadingWorkspace)
      modifies `sys, `instance, `history
      ensures history.calls == old(history.calls)
      ensures if !ok then Ended(Error) else Reached(Notifying)
    {
      var id, current;
      id, current, ok := CheckWorkspace();
      if !ok {
        return;
      }
      ok := SetWorkspaceId(id, current);
      if !ok {
        return;
      }
      ok := SetRunId(current);
      if !ok {
        return;
      }
      var ours := Finalizers.Contains(instance.finalizers, FINALIZER);
      if !ours {
        ok := AddFinalizer();
      }
    }

    /****** The notifications, the run in progress, and the outputs ******/

    /** The decisions that lead to `next` have been made from here; if they ended the call, then with an error. */
    ghost predicate Decided(next: Sys)
      reads `sys, `instance, `history
    {
      Valid() && instance == sys.mem && sys.phase == next.phase && (sys.phase == Idle ==> sys.returned == next.returned)
    }

    method ReconcileNotifications() returns (ok: bool)
      requires Reached(Notifying)
      modifies `sys, `history
      ensures history.calls == old(history.calls)
      ensures if !ok then Ended(Error) else Decided(HaveNotified(sys))
    {
      Meanwhile();
      var remote;
      ghost var listed, relisted, done;
      ok, remote, listed, relisted, done := SyncNotificationsWith(instance.spec.notifications,
          sys.cloud.held.notifications);
      TakeNotify(remote, ok, listed, relisted, done);
    }

    method CheckRun() returns (status: RunStatus, ok: bool)
      requires Reached(ReadingRun)
      modifies `sys, `history
      ensures history.calls == old(history.calls)
      ensures if !ok then Ended(Error)
              else if status == instance.status.runStatus then Ended(Requeue) && instance == sys.mem
              else Reached(StoringRunStatus(status))
    {
      var o: Outcome := *;
      var run := instance.status.run;
      ok := run.None? || (o.Done? && run.value < |sys.cloud.runs|);
      status := Calm.StatusRead(sys);
      TakeReadRun(o);
    }

    method SetRunStatus(status: RunStatus) returns (ok: bool)
      requires Reached(StoringRunStatus(status))
      modifies `sys, `instance, `history
      ensures history.calls == old(history.calls)
      ensures if ok then Ended(Requeue) else Ended(Error)
    {
      instance := instance.(status := instance.status.(runStatus := status));
      assert NextStatus(sys) == Some(instance.status);
      ok := UpdateStatus();
    }

    method RunInProgress() returns (inProgress: bool, ok: bool)
      requires Decided(HaveNotified(sys))
      modifies `sys, `instance, `history
      ensures history.calls == old(history.calls)
      ensures if !ok then Ended(Error)
              else if inProgress then Ended(Requeue)
              else Decided(HaveNotified(sys)) && !IsPending(instance.status.runStatus)
    {
      if !IsPending(instance.status.runStatus) {
        return false, true;
      }
      Meanwhile();
      var status;
      status, ok := CheckRun();
      inProgress := ok;
      if ok && instance.status.runStatus != status {
        ok := SetRunStatus(status);
        inProgress := ok;
      }
    }

    /** The outputs that the state publishes, in order of key; none as long as there is no run. */
    method CheckOutputs() returns (outputs: seq<Outputs.OutputStatus>, ok: bool)
      requires Reached(ReadingState)
      modifies `sys, `history
      ensures history.calls == old(history.calls)
      ensures if !ok then Ended(Error)
              else Reached(if outputs != instance.status.outputs then StoringOutputs(outputs) else PublishingSecret)
    {
      Meanwhile();
      var o: Outcome := *;
      outputs := [];
      if instance.status.run.None? {
        o := Done;
      } else {
        outputs := Outputs.ListCanonically(sys.cloud.state);
      }
      ok := o.Done?;
      TakeSetupCall(AfterReadState(sys, outputs, o), ReadState(outputs, o));
    }

    method UpsertSecretOutputs() returns (ok: bool)
      requires Reached(PublishingSecret)
      modifies `sys, `history
      ensures history.calls == old(history.calls)
      ensures if !ok then Ended(Error) else Decided(HavePublished(sys))
    {
      Meanwhile();
      var o, secret;
      o, secret := UpsertSecretWith(sys.cluster.secret, instance.status.outputs);
      ok := o == Done;
      PutSecretLeads(sys, o);
      TakeSetupCall(AfterPutSecret(sys, o), PutSecret(o));
      assert sys.cluster.secret == secret;
    }

    method SetOutputs(outputs: seq<Outputs.OutputStatus>) returns (ok: bool)
      requires Reached(if outputs != instance.status.outputs then StoringOutputs(outputs) else PublishingSecret)
      modifies `sys, `instance, `history
      ensures history.calls == old(history.calls)
      ensures if ok then Reached(PublishingSecret) else Ended(Error)
    {
      ok := true;
      if outputs != instance.status.outputs {
        instance := instance.(status := instance.status.(outputs := outputs));
        assert NextStatus(sys) == Some(instance.status);
        ok := UpdateStatus();
      }
    }

    method ProcessFinishedRun() returns (ok: bool)
      requires Decided(HaveNotified(sys)) && !IsPending(instance.status.runStatus)
      modifies `sys, `instance, `history
      ensures history.calls == old(history.calls)
      ensures if !ok then Ended(Error) else Decided(HavePublished(sys))
    {
      if IsError(instance.status.runStatus) {
        return true;
      }
      var outputs;
      outputs, ok := CheckOutputs();
      if !ok {
        return;
      }
      ok := SetOutputs(outputs);
      if ok {
        ok := UpsertSecretOutputs();
      }
    }

    /****** What the spec needs ******/

    method UpsertTerraformConfig(text: string) returns (updated: bool, ok: bool)
      requires Reached(Templating) && Text(sys) == Some(text)
      modifies `sys, `history
      ensures history.calls == old(history.calls)
      ensures if !ok then Ended(Error) else Reached(SyncingVariables(updated))
    {
      Meanwhile();
      var o, config;
      updated, o, config := UpsertConfigWith(sys.cluster.config, text);
      ok := o == Done;
      TakeSyncCall(AfterPutConfig(sys, o), PutConfig(o));
      assert sys.cluster.config == config;
    }

    method UpdateTerraformTemplate() returns (updated: bool, ok: bool)
      requires Decided(HavePublished(sys))
      modifies `sys, `history
      ensures history.calls == old(history.calls)
      ensures if !ok then Ended(Error) else Reached(SyncingVariables(updated))
    {
      if instance.spec.vcs {
        return false, true;
      }
      var text := Template.Render(instance.spec, sys.cluster.namespace, sys.cluster.name);
      if text.None? {
        return false, false;
      }
      updated, ok := UpsertTerraformConfig(text.value);
    }

    /** The variables with their values from ConfigMaps and Secrets. */
    method ResolveVariables() returns (vs: seq<Variables.SpecVariable>, ok: bool)
      requires Valid() && instance == sys.mem
      ensures ResolveAll(instance.spec.variables, sys.cluster.sources.refs) == if ok then Some(vs) else None
    {
      vs := [];
      for i := 0 to |instance.spec.variables|
        invariant |vs| == i
        invariant forall j :: 0 <= j < i ==> var v := instance.spec.variables[j];
                    Resolve(v.0, v.1, sys.cluster.sources.refs) == Some(vs[j])
      {
        var v := instance.spec.variables[i];
        match Resolve(v.0, v.1, sys.cluster.sources.refs) {
          case None =>
            assert v in instance.spec.variables;
            return vs, false;
          case Some(w) => vs := vs + [w];
        }
      }
      AllResolved(instance.spec.variables, sys.cluster.sources.refs, vs);
      ok := true;
    }

    method CheckVariables(vs: seq<Variables.SpecVariable>, soFar: bool) returns (updated: bool, ok: bool)
      requires Reached(SyncingVariables(soFar)) && Wanted(sys) == Some(Variables.ToSettings(vs))
      modifies `sys, `history
      ensures history.calls == old(history.calls)
      ensures if !ok then Ended(Error) else Reached(SyncingTriggers(soFar || updated))
    {
      Meanwhile();
      KeysAreDistinct();
      var remote;
      ghost var listed, done;
      updated, ok, remote, listed, done := SyncVariablesWith(vs, sys.cloud.held.variables, sys.cluster.sources.mount);
      var t := Holding(sys, sys.cloud.held.(variables := remote));
      t := if ok then t.(phase := SyncingTriggers(soFar || updated)) else Return(t, Error);
      TakeSyncCall(t, SyncVariables(listed, done, ok));
    }

    method UpdateVariables(soFar: bool) returns (updated: bool, ok: bool)
      requires Reached(SyncingVariables(soFar))
      modifies `sys, `history
      ensures history.calls == old(history.calls)
      ensures if !ok then Ended(Error) else Reached(SyncingTriggers(soFar || updated))
    {
      Meanwhile();
      var vs;
      vs, ok := ResolveVariables();
      updated := false;
      if ok {
        updated, ok := CheckVariables(vs, soFar);
      } else {
        TakeSyncCall(AfterSyncVariables(sys, [], [], false), SyncVariables([], [], false));
      }
    }

    method UpdateRunTriggers(soFar: bool) returns (updated: bool, ok: bool)
      requires Reached(SyncingTriggers(soFar))
      modifies `sys, `history
      ensures history.calls == old(history.calls)
      ensures if !ok then Ended(Error)
              else Valid() && instance == sys.mem && sys.phase == HaveSynced(sys, soFar || updated).phase
                   && (sys.phase == Idle ==> sys.returned == Settled)
    {
      Meanwhile();
      var remote;
      ghost var listed, done;
      updated, ok, remote, listed, done := SyncTriggersWith(instance.spec.runTriggers, sys.cloud.held.triggers);
      TakeSyncTriggers(remote, ok, soFar, updated, listed, done);
    }

    lemma KeysAreDistinct()
      requires Valid()
      ensures Variables.DistinctKeys(sys.cloud.held.variables)
    {
      Quiescence.ReachableIsSound(history.states, history.labels, |history.labels|);
    }

    /****** A new run ******/

    /** Reads the template, creates a version, and sends the module's files. */
    method CreateConfigurationVersion() returns (id: nat, ok: bool)
      requires Reached(CreatingVersion)
      modifies `sys, `history
      ensures history.calls == old(history.calls)
      ensures if !ok then Ended(Error) else Reached(Uploading(id)) && id < |sys.cloud.versions|
    {
      Meanwhile();
      var o: Outcome := *;
      id := |sys.cloud.versions|;
      TakeRunCall(AfterCreateVersion(sys, o), CreateVersion(o));
      ok := o.Done?;
    }

    method UploadConfigurationFile(id: nat) returns (ok: bool)
      requires Reached(Uploading(id)) && id < |sys.cloud.versions|
      modifies `sys, `history
      ensures history.calls == old(history.calls)
      ensures if !ok then Ended(Error) else Reached(StoringVersion(id))
    {
      Meanwhile();
      var o: Outcome := *;
      TakeRunCall(AfterUpload(sys, o), Upload(o));
      ok := o.Done?;
    }

    method ReadConfigurationVersion() returns (uploaded: bool, ok: bool)
      requires Reached(ReadingVersion)
      modifies `sys, `history
      ensures history.calls == old(history.calls)
      ensures if !ok then Ended(Error) else if uploaded then Reached(ClearingVersion) else Ended(Requeue)
    {
      Meanwhile();
      var o: Outcome := *;
      TakeRunCall(AfterReadVersion(sys, o), ReadVersion(o));
      uploaded, ok := sys.phase == ClearingVersion, sys.phase != Idle || sys.returned == Requeue;
    }

    method SetVersion(id: nat) returns (ok: bool)
      requires Reached(StoringVersion(id))
      modifies `sys, `instance, `history
      ensures history.calls == old(history.calls)
      ensures if ok then Reached(ReadingVersion) else Ended(Error)
    {
      instance := instance.(status := instance.status.(version := Some(id)));
      assert NextStatus(sys) == Some(instance.status);
      ok := UpdateStatus();
    }

    method NewVersion() returns (ok: bool)
      requires Reached(CreatingVersion)
      modifies `sys, `instance, `history
      ensures history.calls == old(history.calls)
      ensures if !ok then Ended(Error) else Reached(ReadingVersion)
    {
      var id;
      id, ok := CreateConfigurationVersion();
      if !ok {
        return;
      }
      ok := UploadConfigurationFile(id);
      if ok {
        ok := SetVersion(id);
      }
    }

    method PrepareModuleRun() returns (requeue: bool, ok: bool)
      requires Reached(if instance.status.version.None? then CreatingVersion else ReadingVersion)
      modifies `sys, `instance, `history
      ensures history.calls == old(history.calls)
      ensures if !ok then Ended(Error)
              else if requeue then Ended(Requeue)
              else Valid() && instance == sys.mem && sys.phase.CreatingRun?
    {
      requeue, ok := true, true;
      if instance.status.version.None? {
        ok := NewVersion();
        if !ok {
          return;
        }
      }
      var uploaded;
      uploaded, ok := ReadConfigurationVersion();
      if !ok || !uploaded {
        return;
      }
      ok := ClearVersion();
      requeue := false;
    }

    method ClearVersion() returns (ok: bool)
      requires Reached(ClearingVersion)
      modifies `sys, `instance, `history
      ensures history.calls == old(history.calls)
      ensures if !ok then Ended(Error) else Valid() && instance == sys.mem && sys.phase.CreatingRun?
    {
      instance := instance.(status := instance.status.(version := None));
      assert NextStatus(sys) == Some(instance.status);
      ok := UpdateStatus();
    }

    method PrepareVCSRun() returns (requeue: bool, ok: bool)
      requires Reached(ListingVersions)
      modifies `sys, `history
      ensures history.calls == old(history.calls)
      ensures if !ok then Ended(Error)
              else if requeue then Ended(Requeue)
              else Valid() && instance == sys.mem && sys.phase.CreatingRun?
    {
      Meanwhile();
      var o: Outcome := *;
      TakeRunCall(AfterListVersions(sys, o), ListVersions(o));
      ok, requeue := o.Done?, sys.phase == Idle;
    }

    method CreateTheRun() returns (id: nat, status: RunStatus, ok: bool)
      requires Valid() && instance == sys.mem && sys.phase.CreatingRun?
      modifies `sys, `history
      ensures history.calls == old(history.calls)
      ensures if !ok then Ended(Error) else Reached(RecordingRun(id, status))
    {
      Meanwhile();
      var o: Outcome := *;
      status := NewStatus();
      id := |sys.cloud.runs|;
      TakeRunCall(AfterCreateRun(sys, status, o), CreateRun(status, o));
      ok := o.Done?;
    }

    method StartRun() returns (ok: bool)
      requires Reached(Machine.StartRun(sys).phase)
      modifies `sys, `instance, `history
      ensures history.calls == old(history.calls)
      ensures if ok then Ended(Requeue) else Ended(Error)
    {
      var requeue := false;
      ok := true;
      if instance.spec.vcs {
        requeue, ok := PrepareVCSRun();
      } else if instance.spec.mod.Some? {
        requeue, ok := PrepareModuleRun();
      }
      if !ok || requeue {
        return;
      }
      ok := CreateAndRecord();
    }

    method CreateAndRecord() returns (ok: bool)
      requires Valid() && instance == sys.mem && sys.phase.CreatingRun?
      modifies `sys, `instance, `history
      ensures history.calls == old(history.calls)
      ensures if ok then Ended(Requeue) else Ended(Error)
    {
      var id, status;
      id, status, ok := CreateTheRun();
      if !ok {
        return;
      }
      instance := instance.(status := instance.status.(run := Some(id), runStatus := status));
      ok := UpdateStatus();
    }

    /****** Reconcile ******/

    /** The syncs, and whether one of them calls for a run. */
    method Sync() returns (updated: bool, ok: bool)
      requires Decided(HavePublished(sys))
      modifies `sys, `history
      ensures history.calls == old(history.calls)
      ensures if !ok then Ended(Error)
              else Valid() && instance == sys.mem && sys.phase == HaveSynced(sys, updated).phase
                   && (sys.phase == Idle ==> sys.returned == Settled)
    {
      var updatedTerraform, updatedVariables, updatedRunTriggers;
      updated := false;
      updatedTerraform, ok := UpdateTerraformTemplate();
      if !ok {
        return;
      }
      updatedVariables, ok := UpdateVariables(updatedTerraform);
      if !ok {
        return;
      }
      updatedRunTriggers, ok := UpdateRunTriggers(updatedTerraform || updatedVariables);
      updated := updatedTerraform || updatedVariables || updatedRunTriggers;
    }

    /** From the workspace on to the outputs of a run that is over. */
    method CatchUp() returns (inProgress: bool, ok: bool)
      requires Reached(ReadingWorkspace)
      modifies `sys, `instance, `history
      ensures history.calls == old(history.calls)
      ensures if !ok then Ended(Error) else if inProgress then Ended(Requeue) else Decided(HavePublished(sys))
    {
      inProgress := false;
      ok := ReconcileWorkspace();
      if !ok {
        return;
      }
      ok := ReconcileNotifications();
      if !ok {
        return;
      }
      inProgress, ok := RunInProgress();
      if !ok || inProgress {
        return;
      }
      ok := ProcessFinishedRun();
    }

    /** One call: it takes the run on from where it stood, through one reading of the object to the end of the
        call; unless the operator is stopped in it, it returns what the machine records. */
    method Reconcile() returns (result: Result)
      requires Valid() && sys.phase == Idle
      modifies this
      ensures Valid() && sys.phase == Idle && (!stopped ==> result == sys.returned)
      ensures old(history.states) <= history.states && old(history.labels) <= history.labels
      ensures history.calls.count == old(history.calls.count) + 1
    {
      history := CallBegins(history);
      stopped := false;
      var found, ok := InitializeReconciliation();
      if !ok {
        return Error;
      } else if !found {
        return Nothing;
      }
      var deleted;
      deleted, ok := CondDeleteWorkspace();
      if !ok {
        return Error;
      } else if deleted {
        return Nothing;
      }
      var inProgress;
      inProgress, ok := CatchUp();
      if !ok {
        return Error;
      } else if inProgress {
        return Requeue;
      }
      var updated;
      updated, ok := Sync();
      if !ok {
        return Error;
      }
      if updated || instance.status.run.None? || instance.status.version.Some? {
        ok := StartRun();
        return if ok then Requeue else Error;
      }
      return Settled;
    }
  }

  lemma AllResolved(variables: seq<(Variables.SpecVariable, Reference)>, refs: References,
      vs: seq<Variables.SpecVariable>)
    requires |vs| == |variables| && forall j :: 0 <= j < |vs| ==>
             Resolve(variables[j].0, variables[j].1, refs) == Some(vs[j])
    ensures ResolveAll(variables, refs) == Some(vs)
  {
    assert vs == seq(|variables|, i requires 0 <= i < |variables| => Found(variables[i], refs));
  }

  method SyncVariablesWith(vs: seq<Variables.SpecVariable>, remote: VariableSync.Keyed, mount: map<string, string>)
    returns (updated: bool, ok: bool, after: VariableSync.Keyed, ghost listed: seq<Variables.Listed>,
        ghost done: seq<Variables.Call>)
    ensures Variables.Lists(listed, remote) && after == Variables.ApplyAll(remote, done)
    ensures var plan := Variables.Plan(Variables.ToSettings(vs), mount, listed);
            done <= plan.calls && (ok ==> plan == Variables.Outline(done, true, updated))
  {
    var objects := VariableSync.MapToTFCVariable(vs);
    var client := new VariableSync.VariableClient(remote, mount);
    updated, ok, listed, done := client.CheckVariables(objects, Variables.ToSettings(vs));
    after := client.remote;
  }

  method UpsertConfigWith(config: Option<string>, text: string)
      returns (updated: bool, o: Outcome, after: Option<string>)
    ensures after == if o.Effective() then Some(text) else config
    ensures o == Done ==> updated == (config != Some(text))
  {
    var client := new Template.ConfigMapClient(config);
    var ok;
    updated, ok := client.UpsertTerraformConfig(text);
    after := client.config;
    o := if ok then Done else if after == config then Refused else Lost;
  }

  method UpsertSecretWith(secret: Option<map<string, string>>, outputs: seq<Outputs.OutputStatus>)
    returns (o: Outcome, after: Option<map<string, string>>)
    ensures after == if o.Effective() then Some(Outputs.OutputsToMap(outputs)) else secret
  {
    var client := new Outputs.SecretClient(secret);
    ghost var wrote;
    var ok;
    ok, wrote := client.UpsertSecretOutputs(outputs);
    after := client.secret;
    o := if ok then Done else if after == secret then Refused else Lost;
  }

  method SyncNotificationsWith(spec: seq<Notifications.Notification>, remote: Notifications.Remote)
    returns (ok: bool, after: Notifications.Remote, ghost listed: seq<Notifications.Listed>,
             ghost relisted: seq<Notifications.Listed>, ghost done: seq<Notifications.Call>)
    ensures MayNotify(spec, remote, listed, relisted, done, ok) && after == Notifications.ApplyAll(remote, done)
  {
    var client := new Notifications.NotificationClient(remote);
    ok, listed, relisted, done := client.CheckNotifications(spec);
    after := client.remote;
  }

  method SyncTriggersWith(spec: seq<string>, remote: RunTriggers.Remote)
    returns (updated: bool, ok: bool, after: RunTriggers.Remote, ghost listed: seq<RunTriggers.Listed>,
        ghost done: seq<RunTriggers.Call>)
    ensures MayTrigger(spec, remote, listed, done, ok) && after == RunTriggers.ApplyAll(remote, done)
    ensures ok ==> updated == (RunTriggers.Creates(spec, listed) != [])
  {
    var client := new RunTriggers.TriggerClient(remote, true);
    ghost var refused;
    updated, ok, refused, listed, done := client.CheckRunTriggers(spec);
    after := client.remote;
  }

  /** The positions from `i` on of runs that are pending. */
  function PendingFrom(runs: seq<Run>, i: nat): seq<nat>
    requires i <= |runs|
    decreases |runs| - i
  {
    if i == |runs| then []
    else if IsPending(runs[i].status) then [i] + PendingFrom(runs, i + 1)
    else PendingFrom(runs, i + 1)
  }

  lemma {:induction false} PendingInOrder(runs: seq<Run>, i: nat)
    requires i <= |runs|
    ensures PendingRuns(runs[..i]) + PendingFrom(runs, i) == PendingRuns(runs)
    ensures i == 0 ==> PendingFrom(runs, 0) == PendingRuns(runs)
    decreases |runs| - i
  {
    if i == |runs| {
      assert runs[..i] == runs;
    } else {
      PendingInOrder(runs, i + 1);
      assert runs[..i + 1][..i] == runs[..i];
    }
  }

  /** The notifications are as they were left, and the call goes on or fails. */
  function Notified(s: Sys, remote: Notifications.Remote, ok: bool): Sys {
    var t := Holding(s, s.cloud.held.(notifications := remote));
    if ok then HaveNotified(t) else Return(t, Error)
  }

  lemma NotifyLeads(s: Sys, listed: seq<Notifications.Listed>, relisted: seq<Notifications.Listed>,
                    done: seq<Notifications.Call>, ok: bool)
    ensures var t := Notified(s, Notifications.ApplyAll(s.cloud.held.notifications, done), ok);
            && t == SetupStep(s, Notify(listed, relisted, done, ok)) && t.mem == s.mem
            && if ok then t.phase == HaveNotified(t).phase && (t.phase == Idle ==> t.returned == Error)
               else t.phase == Idle && t.returned == Error
  {
  }

  function Triggered(s: Sys, remote: RunTriggers.Remote, ok: bool, updated: bool): Sys {
    var t := Holding(s, s.cloud.held.(triggers := remote));
    if ok then HaveSynced(t, updated) else Return(t, Error)
  }

  lemma TriggersLead(s: Sys, soFar: bool, listed: seq<RunTriggers.Listed>, done: seq<RunTriggers.Call>, ok: bool)
    requires s.phase == SyncingTriggers(soFar)
    ensures var updated := soFar || RunTriggers.Creates(s.mem.spec.runTriggers, listed) != [];
            var t := Triggered(s, RunTriggers.ApplyAll(s.cloud.held.triggers, done), ok, updated);
            && t == SyncStep(s, SyncTriggers(listed, done, ok)) && t.mem == s.mem
            && if ok then t.phase == HaveSynced(t, updated).phase && (t.phase == Idle ==> t.returned == Settled)
               else t.phase == Idle && t.returned == Error
  {
  }

  /** The call goes on with this workspace. */
  predicate HasWorkspace(t: Sys, id: nat, current: Option<nat>) { t.phase == HaveWorkspace(t, id, current).phase }

  /** What the reading of the workspace comes to for the operator. */
  predicate WorkspaceRead(s: Sys, o: Outcome, t: Sys) {
    && t.mem == s.mem && t.cloud == s.cloud
    && if !o.Done? then t.phase == Idle && t.returned == Error
       else if s.cloud.workspace.None? then t.phase == CreatingWorkspace
       else HasWorkspace(t, s.cloud.workspace.value, CurrentRun(s.cloud))
  }

  lemma ReadWorkspaceLeads(s: Sys, o: Outcome)
    ensures WorkspaceRead(s, o, AfterReadWorkspace(s, o))
  {
  }

  lemma ReadComesTo(s: Sys, o: Outcome, t: Sys, found: bool, id: nat, current: Option<nat>)
    requires WorkspaceRead(s, o, t) && found == s.cloud.workspace.Some? && current == CurrentRun(s.cloud)
    requires found ==> id == s.cloud.workspace.value
    ensures t.mem == s.mem
    ensures if !o.Done? then t.phase == Idle && t.returned == Error
            else if !found then t.phase == CreatingWorkspace
            else HasWorkspace(t, id, current)
  {
  }

  predicate RunRead(s: Sys, o: Outcome, t: Sys) {
    && t.mem == s.mem
    && if s.mem.status.run.Some? && (!o.Done? || s.mem.status.run.value >= |s.cloud.runs|) then
         t.phase == Idle && t.returned == Error
       else
         if Calm.StatusRead(s) != s.mem.status.runStatus then t.phase == StoringRunStatus(Calm.StatusRead(s))
         else t.phase == Idle && t.returned == Requeue
  }

  lemma ReadRunLeads(s: Sys, o: Outcome)
    ensures RunRead(s, o, AfterReadRun(s, o))
  {
  }

  lemma PutSecretLeads(s: Sys, o: Outcome)
    ensures var t := AfterPutSecret(s, o);
            && t.mem == s.mem
            && if o.Done? then t.phase == HavePublished(t).phase &&
               (t.phase == Idle ==> t.returned == HavePublished(t).returned)
               else t.phase == Idle && t.returned == Error
  {
  }

  /** Where the call goes on in `t` after the write that was due at `p`. */
  predicate GoesOn(p: Phase, t: Sys) {
    && (p.StoringWorkspace? ==> t.phase == HaveStored(t, p.current).phase)
    && (p.AdoptingRun? ==> t.phase == HaveAdopted(t).phase)
    && (p.StoringRunStatus? || p.RecordingRun? ==> t.phase == Idle && t.returned == Requeue)
    && (p.StoringOutputs? ==> t.phase == PublishingSecret)
    && (p.StoringVersion? ==> t.phase == ReadingVersion)
    && (p == ClearingVersion ==> t.phase.CreatingRun?)
  }

  /** What a write of the status comes to for the operator. */
  predicate StatusWritten(s: Sys, status: Status, ok: bool, t: Sys) {
    && t.cluster == s.cluster
    && if !ok then t.phase == Idle && t.returned == Error
       else t.mem == s.mem.(status := status, revision := s.mem.revision + 1) && GoesOn(s.phase, t)
  }

  lemma WriteOfStatus(s: Sys, status: Status, o: Outcome)
    requires NextStatus(s) == Some(status)
    ensures StatusWritten(s, status, Succeeds(s, o), AfterWriteStatus(s, status, o))
  {
  }

  predicate FromOutside(l: Label) { ServerMove(l) || l.Edit? || l.Mark? }

  /** The operator has not moved, nor has what only the operator changes during its calls. */
  predicate Waited(s: Sys, t: Sys) {
    && t.phase == s.phase && t.mem == s.mem && t.returned == s.returned && t.cluster == s.cluster &&
       t.cloud.held == s.cloud.held
    && t.cloud.workspace == s.cloud.workspace && |t.cloud.runs| == |s.cloud.runs| &&
       |t.cloud.versions| == |s.cloud.versions|
  }

  lemma OutsideWaits(s: Sys, l: Label)
    requires FromOutside(l) && Machine.At(s, l)
    ensures Enabled(s, l) && Waited(s, Step(s, l))
  {
    if ServerMove(l) { ServerWaits(s, l); } else { UserWaits(s, l); }
  }

  lemma ServerWaits(s: Sys, l: Label)
    requires ServerMove(l)
    ensures Allowed(s, l) && Waited(s, ServerStep(s, l))
  {
  }

  lemma UserWaits(s: Sys, l: Label)
    requires l.Edit? || l.Mark?
    ensures Allowed(s, l) && Waited(s, UserStep(s, l))
  {
  }
}

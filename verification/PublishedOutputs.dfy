/**
 What the status and the Secret say of the state when a call of Reconcile settles: they show the state as the
 call had read it, however many runs were lost.  That is the state of the moment if every run had ended by then.
 */
module PublishedOutputs {
  import opened Options
  import opened Runs
  import opened Machine
  import opened MachineInvariants
  import opened Safety
  import opened Mirroring
  import Outputs

  /****** From the reading of the state to the end of the call ******/

  /** The call has read the state, or what stands for it before the first run. */
  predicate HasRead(s: Sys) {
    s.phase.StoringOutputs? || s.phase.PublishingSecret? || (Syncing(s.phase) && !IsError(s.mem.status.runStatus))
  }

  predicate Shows(st: Status, outputs: seq<Outputs.OutputStatus>, state: map<string, string>) {
    st.run.Some? ==> Outputs.Canonical(outputs, state)
  }

  /** What the call is about to write, or has written, shows this state. */
  predicate Carries(s: Sys, state: map<string, string>) {
    Shows(s.mem.status, if s.phase.StoringOutputs? then s.phase.outputs else s.mem.status.outputs, state)
  }

  lemma ReadCarries(s: Sys, l: Label)
    requires l.ReadState? && Enabled(s, l) && Step(s, l).phase != Idle
    ensures HasRead(Step(s, l)) && Carries(Step(s, l), s.cloud.state) && Step(s, l).cloud == s.cloud
  {
  }

  lemma WriteCarries(s: Sys, l: Label, state: map<string, string>)
    requires HasRead(s) && Carries(s, state) && ObjectCall(l) && AtObjectCall(s, l)
    ensures HasRead(ObjectStep(s, l)) ==> Carries(ObjectStep(s, l), state)
    ensures ObjectStep(s, l).cloud == s.cloud
  {
  }

  lemma CallCarries(s: Sys, l: Label, state: map<string, string>)
    requires HasRead(s) && Carries(s, state)
    requires (SetupCall(l) && AtSetupCall(s, l)) || (SyncCall(l) && AtSyncCall(s, l))
    ensures var t := if SetupCall(l) then SetupStep(s, l) else SyncStep(s, l);
            Carries(t, state) && t.mem == s.mem && t.cloud == s.cloud.(held := t.cloud.held)
  {
  }

  lemma MoveCarries(s: Sys, l: Label, state: map<string, string>)
    requires HasRead(s) && Carries(s, state) && ServerMove(l) && AtServerMove(s, l)
    ensures HasRead(ServerStep(s, l)) && Carries(ServerStep(s, l), state)
    ensures Ended(s.cloud.runs) ==> Ended(ServerStep(s, l).cloud.runs) && ServerStep(s, l).cloud.state == s.cloud.state
  {
  }

  lemma UserStepCarries(s: Sys, l: Label, state: map<string, string>)
    requires HasRead(s) && Carries(s, state) && !OperatorCall(l) && !ServerMove(l) && AtUserStep(s, l)
    ensures HasRead(UserStep(s, l)) ==> Carries(UserStep(s, l), state)
    ensures UserStep(s, l).cloud == s.cloud
  {
  }

  lemma OnlyTheseAfterRead(s: Sys, l: Label)
    requires HasRead(s) && At(s, l)
    ensures !DeletionCall(l) && !RunCall(l)
  {
  }

  /** Until the call ends, the outputs are those of the state that it has read; and no state is made anew while
      no run is under way. */
  lemma StepCarries(s: Sys, l: Label, state: map<string, string>)
    requires HasRead(s) && Carries(s, state) && At(s, l)
    ensures HasRead(Step(s, l)) || Settles(s, Step(s, l)) ==> Carries(Step(s, l), state)
    ensures Ended(s.cloud.runs) ==> Ended(Step(s, l).cloud.runs) && Step(s, l).cloud.state == s.cloud.state
  {
    OnlyTheseAfterRead(s, l);
    if SetupCall(l) || SyncCall(l) { CallCarries(s, l, state); }
    else if ObjectCall(l) {
      WriteCarries(s, l, state);
      NothingElseSettles(s, l);
    }
    else if ServerMove(l) { MoveCarries(s, l, state); }
    else {
      UserStepCarries(s, l, state);
      NothingElseSettles(s, l);
    }
  }

  /** A call that is past the reading has read. */
  lemma CameFromRead(s: Sys, l: Label)
    requires At(s, l) && HasRead(Step(s, l))
    ensures HasRead(s) || l.ReadState?
  {
    if SetupCall(l) { SetupCameFromRead(s, l); }
    else if DeletionCall(l) { DeletionIsQuiet(s, l); }
    else if RunCall(l) { RunCallIsQuiet(s, l); }
    else { OtherCameFromRead(s, l); }
  }

  lemma SetupCameFromRead(s: Sys, l: Label)
    requires SetupCall(l) && AtSetupCall(s, l) && HasRead(SetupStep(s, l))
    ensures HasRead(s) || l.ReadState?
  {
  }

  lemma OtherCameFromRead(s: Sys, l: Label)
    requires !SetupCall(l) && !DeletionCall(l) && !RunCall(l) && At(s, l) && HasRead(Step(s, l))
    ensures HasRead(s)
  {
  }

  /****** Over whole runs ******/

  predicate HasReadAt(states: seq<Sys>, k: nat) { k < |states| && HasRead(states[k]) }

  /** At step `m` the call that is under way at `n` read the state. */
  predicate ReadsFor(states: seq<Sys>, labels: seq<Label>, m: nat, n: nat) {
    m < n < |states| && m < |labels| && labels[m].ReadState? && forall k :: m < k <= n ==> HasReadAt(states, k)
  }

  lemma CameFromReadAt(states: seq<Sys>, labels: seq<Label>, k: nat)
    requires IsRun(states, labels) && k < |labels| && HasRead(states[k + 1])
    ensures HasRead(states[k]) || labels[k].ReadState?
  {
    assert StepAt(states, labels, k);
    CameFromRead(states[k], labels[k]);
  }

  lemma {:induction false} TheCallHasRead(states: seq<Sys>, labels: seq<Label>, n: nat)
    requires IsRun(states, labels) && Init(states[0]) && HasReadAt(states, n)
    ensures exists m: nat :: ReadsFor(states, labels, m, n)
  {
    CameFromReadAt(states, labels, n - 1);
    if labels[n - 1].ReadState? {
      assert ReadsFor(states, labels, n - 1, n);
    } else {
      TheCallHasRead(states, labels, n - 1);
      var m: nat :| ReadsFor(states, labels, m, n - 1);
      assert ReadsFor(states, labels, m, n);
    }
  }

  predicate KeptSince(read: Sys, s: Sys) {
    Carries(s, read.cloud.state) && (Ended(read.cloud.runs) ==>
        Ended(s.cloud.runs) && s.cloud.state == read.cloud.state)
  }

  lemma KeptNext(states: seq<Sys>, labels: seq<Label>, m: nat, k: nat)
    requires IsRun(states, labels) && m <= k < |labels| && HasRead(states[k]) && KeptSince(states[m], states[k])
    ensures HasRead(states[k + 1]) || Settles(states[k], states[k + 1]) ==> KeptSince(states[m], states[k + 1])
  {
    assert StepAt(states, labels, k);
    StepCarries(states[k], labels[k], states[m].cloud.state);
  }

  lemma KeptFirst(states: seq<Sys>, labels: seq<Label>, m: nat)
    requires IsRun(states, labels) && m < |labels| && labels[m].ReadState? && HasRead(states[m + 1])
    ensures KeptSince(states[m], states[m + 1])
  {
    assert StepAt(states, labels, m);
    ReadCarries(states[m], labels[m]);
  }

  lemma {:induction false} KeptUntil(states: seq<Sys>, labels: seq<Label>, m: nat, n: nat)
    requires IsRun(states, labels) && ReadsFor(states, labels, m, n)
    ensures KeptSince(states[m], states[n])
  {
    assert HasReadAt(states, n);
    if n == m + 1 {
      KeptFirst(states, labels, m);
    } else {
      assert HasReadAt(states, n - 1);
      KeptUntil(states, labels, m, n - 1);
      KeptNext(states, labels, m, n - 1);
    }
  }

  /** What is published in `s` shows the state as it was in `read`; it shows the state of the moment exactly if
      that has not changed, and it has not changed if every run had ended. */
  predicate Publishes(read: Sys, s: Sys) {
    && Outputs.Canonical(s.mem.status.outputs, read.cloud.state)
    && s.cluster.secret == Some(Outputs.OutputsToMap(s.mem.status.outputs))
    && (Outputs.Canonical(s.mem.status.outputs, s.cloud.state) <==> s.cloud.state == read.cloud.state)
    && (Ended(read.cloud.runs) ==> s.cloud.state == read.cloud.state)
  }

  /** Whenever Reconcile asks only to be called again after a while, and the run has not errored, status and Secret
      show the state that this call has read; so they show the state of the moment if every run had ended then. */
  lemma SettledShowsTheStateRead(states: seq<Sys>, labels: seq<Label>, n: nat)
    requires IsRun(states, labels) && Init(states[0]) && n < |labels| && Settles(states[n], states[n + 1])
    requires !IsError(states[n + 1].mem.status.runStatus)
    ensures exists m: nat :: ReadsFor(states, labels, m, n) && Publishes(states[m], states[n + 1])
  {
    SettledMirrorsTheSpec(states, labels, n);
    assert StepAt(states, labels, n);
    OnlyTriggersSettle(states[n], labels[n]);
    assert HasReadAt(states, n);
    TheCallHasRead(states, labels, n);
    var m: nat :| ReadsFor(states, labels, m, n);
    KeptUntil(states, labels, m, n);
    KeptNext(states, labels, m, n);
    assert Publishes(states[m], states[n + 1]);
  }

  /****** Runs that were not lost ******/

  lemma {:induction false} NoneUnrecorded(runs: seq<Run>, i: nat)
    requires Unrecorded(runs) == 0 && i < |runs| && runs[i].kind.Apply?
    ensures runs[i].recorded
  {
    if i < |runs| - 1 {
      NoneUnrecorded(runs[..|runs| - 1], i);
    }
  }

  /** While a call is past the run in progress, no run is under way, unless one was lost. */
  lemma NoRunIsUnderWay(s: Sys)
    requires RunInv(s) && PhaseInv(s) && PastRun(s.phase) && !s.phase.RecordingRun? && s.lost == 0
    ensures Ended(s.cloud.runs)
  {
    forall i | 0 <= i < |s.cloud.runs| ensures !IsPending(s.cloud.runs[i].status) {
      if s.cloud.runs[i].kind.Apply? {
        NoneUnrecorded(s.cloud.runs, i);
      }
    }
  }

  /** As long as no run was lost, status and Secret show the state of the moment. */
  lemma SettledIsCurrentUnlessLost(states: seq<Sys>, labels: seq<Label>, n: nat)
    requires IsRun(states, labels) && Init(states[0]) && n < |labels| && Settles(states[n], states[n + 1])
    requires !IsError(states[n + 1].mem.status.runStatus) && states[n].lost == 0
    ensures Outputs.Canonical(states[n + 1].mem.status.outputs, states[n + 1].cloud.state)
  {
    SettledShowsTheStateRead(states, labels, n);
    var m: nat :| ReadsFor(states, labels, m, n) && Publishes(states[m], states[n + 1]);
    LostOnlyGrows(states, labels, m, n);
    EndedAtRead(states, labels, m);
  }

  lemma EndedAtRead(states: seq<Sys>, labels: seq<Label>, m: nat)
    requires IsRun(states, labels) && Init(states[0]) && m < |labels| && labels[m].ReadState? && states[m].lost == 0
    ensures Ended(states[m].cloud.runs)
  {
    InitIsSafe(states[0]);
    RunIsSafe(states, labels, m);
    assert StepAt(states, labels, m);
    ReadIsPastRun(states[m], labels[m]);
  }

  lemma ReadIsPastRun(s: Sys, l: Label)
    requires RunInv(s) && PhaseInv(s) && At(s, l) && l.ReadState? && s.lost == 0
    ensures Ended(s.cloud.runs)
  {
    NoRunIsUnderWay(s);
  }

  lemma {:induction false} LostOnlyGrows(states: seq<Sys>, labels: seq<Label>, m: nat, n: nat)
    requires IsRun(states, labels) && Init(states[0]) && m <= n < |states|
    ensures states[m].lost <= states[n].lost
  {
    if m < n {
      LostOnlyGrows(states, labels, m, n - 1);
      InitIsSafe(states[0]);
      LossesAt(states, labels, n - 1);
    }
  }

  /****** And when a run is under way ******/

  /** Outputs that show the state are sure to go on showing it exactly if every run has ended: a run that is under
      way may change the state before the call settles. */
  lemma CurrentForGoodExactlyIfEnded(s: Sys)
    requires Outputs.Canonical(s.mem.status.outputs, s.cloud.state)
    ensures (forall state :: AtServerMove(s, Change(state)) ==> Outputs.Canonical(s.mem.status.outputs, state)) <==>
            Ended(s.cloud.runs)
  {
    if !Ended(s.cloud.runs) {
      var other := if s.cloud.state == map[] then map["" := ""] else map[];
      assert "" in map["" := ""];
      assert AtServerMove(s, Change(other)) && Outputs.OutputsToMap(s.mem.status.outputs) != other;
    }
  }
}

/** Deletion stops what is under way: every run that was pending when the runs were listed is force-cancelled. */
module Cancellation {
  import opened Outcomes
  import opened Runs
  import opened Machine
  import opened MachineInvariants
  import opened Safety
  import DeletionSafety

  /** The call has listed the runs, and goes on to tear everything down. */
  predicate PastListing(p: Phase) {
    || p.Cancelling? || p.ReadingCurrentRun? || p.CreatingDestroyRun? || p.Polling? || p.DeletingWorkspace?
    || (p.RemovingFinalizer? && p.reason.TornDown?)
  }

  predicate CancelledAt(runs: seq<Run>, i: nat) { i < |runs| && runs[i].cancelled }

  /** How many of the runs that were pending are still to be cancelled. */
  function Left(p: Phase): nat { if p.Cancelling? then |p.todo| else 0 }

  /** The first of them are cancelled, and the others are those to be cancelled, in the same order. */
  predicate CancelledInOrder(s: Sys, pending: seq<nat>) {
    && Left(s.phase) <= |pending|
    && (s.phase.Cancelling? ==> s.phase.todo == pending[|pending| - |s.phase.todo|..])
    && forall j :: 0 <= j < |pending| - Left(s.phase) ==> CancelledAt(s.cloud.runs, pending[j])
  }

  /** What is cancelled stays so. */
  predicate RunsGrow(s: Sys, t: Sys) {
    |s.cloud.runs| <= |t.cloud.runs| && forall i :: 0 <= i < |s.cloud.runs| && s.cloud.runs[i].cancelled ==>
        t.cloud.runs[i].cancelled
  }

  lemma OrderStays(s: Sys, t: Sys, pending: seq<nat>)
    requires CancelledInOrder(s, pending) && RunsGrow(s, t)
    requires t.phase == s.phase || (Left(s.phase) == 0 && !t.phase.Cancelling?)
    ensures CancelledInOrder(t, pending)
  {
  }

  lemma ListingStarts(s: Sys, o: Outcome)
    requires s.phase == ListingRuns && PastListing(AfterListRuns(s, o).phase)
    ensures CancelledInOrder(AfterListRuns(s, o), PendingRuns(s.cloud.runs))
  {
  }

  lemma ForceCancelGoesOn(s: Sys, o: Outcome, pending: seq<nat>)
    requires s.phase.Cancelling? && s.phase.todo != [] && CancelledInOrder(s, pending) &&
             s.phase.todo[0] < |s.cloud.runs|
    requires PastListing(AfterForceCancel(s, o).phase)
    ensures CancelledInOrder(AfterForceCancel(s, o), pending)
  {
    var d := |pending| - |s.phase.todo|;
    assert s.phase.todo[0] == pending[d];
    assert s.phase.todo[1..] == pending[d + 1..];
  }

  lemma OtherDeletionCallGoesOn(s: Sys, l: Label)
    requires DeletionCall(l) && AtDeletionCall(s, l) && !l.ForceCancel? && PastListing(s.phase) &&
             PastListing(DeletionStep(s, l).phase)
    requires s.phase.Cancelling? ==> s.phase.todo != []
    ensures RunsGrow(s, DeletionStep(s, l)) && Left(s.phase) == 0 && !DeletionStep(s, l).phase.Cancelling?
  {
  }

  lemma EventGoesOn(s: Sys, l: Label)
    requires !OperatorCall(l) && PastListing(s.phase)
    ensures ServerMove(l) ==> RunsGrow(s, ServerStep(s, l)) && ServerStep(s, l).phase == s.phase
    ensures !ServerMove(l) ==>
              UserStep(s, l).phase == Idle || (UserStep(s, l).phase == s.phase && RunsGrow(s, UserStep(s, l)))
  {
  }

  /** The bounds that the invariant gives. */
  predicate TodoIsListed(s: Sys) { s.phase.Cancelling? ==> forall i :: i in s.phase.todo ==> i < |s.cloud.runs| }

  lemma SafeTodo(s: Sys)
    requires Inv(s)
    ensures TodoIsListed(s)
  {
  }

  lemma StepCancelsInOrder(s: Sys, l: Label, pending: seq<nat>)
    requires PastListing(s.phase) && CancelledInOrder(s, pending) && TodoIsListed(s) && At(s, l) &&
             PastListing(Step(s, l).phase)
    requires s.phase.Cancelling? ==> s.phase.todo != []
    ensures CancelledInOrder(Step(s, l), pending)
  {
    if l.ForceCancel? {
      assert s.phase.todo[0] in s.phase.todo;
      ForceCancelGoesOn(s, l.o, pending);
    } else if DeletionCall(l) {
      OtherDeletionCallGoesOn(s, l);
      OrderStays(s, Step(s, l), pending);
    } else if OperatorCall(l) {
      OtherCallDoesNotDelete(s, l);
    } else {
      EventGoesOn(s, l);
      OrderStays(s, Step(s, l), pending);
    }
  }

  /** A call that is past the listing has listed. */
  lemma CameFromListing(s: Sys, l: Label)
    requires At(s, l) && PastListing(Step(s, l).phase)
    ensures PastListing(s.phase) || l.ListRuns?
  {
    if DeletionCall(l) { DeletionCameFromListing(s, l); }
    else if OperatorCall(l) { OtherCallDoesNotDelete(s, l); }
    else { DeletionSafety.EventsDoNotTearDown(s, l); }
  }

  lemma DeletionCameFromListing(s: Sys, l: Label)
    requires DeletionCall(l) && AtDeletionCall(s, l) && PastListing(DeletionStep(s, l).phase)
    ensures PastListing(s.phase) || l.ListRuns?
  {
  }

  lemma SetupAndSyncDoNotDelete(s: Sys, l: Label)
    ensures SetupCall(l) && AtSetupCall(s, l) ==> !PastListing(SetupStep(s, l).phase)
    ensures SyncCall(l) && AtSyncCall(s, l) ==> !PastListing(SyncStep(s, l).phase)
  {
  }

  lemma ObjectCallDoesNotDelete(s: Sys, l: Label)
    requires ObjectCall(l) && AtObjectCall(s, l)
    ensures !PastListing(ObjectStep(s, l).phase)
  {
  }

  lemma RunCallDoesNotDelete(s: Sys, l: Label)
    requires RunCall(l) && AtRunCall(s, l)
    ensures !PastListing(RunStep(s, l).phase)
  {
  }

  lemma OtherCallDoesNotDelete(s: Sys, l: Label)
    requires OperatorCall(l) && !DeletionCall(l) && At(s, l)
    ensures !PastListing(Step(s, l).phase)
  {
    if RunCall(l) { RunCallDoesNotDelete(s, l); }
    else if ObjectCall(l) { ObjectCallDoesNotDelete(s, l); }
    else { SetupAndSyncDoNotDelete(s, l); }
  }

  /** There is always one to be cancelled next. */
  predicate HasNext(s: Sys) { s.phase.Cancelling? ==> s.phase.todo != [] }

  lemma StepHasNext(s: Sys, l: Label)
    requires At(s, l) && PastListing(Step(s, l).phase) && (HasNext(s) || l.ListRuns?)
    ensures HasNext(Step(s, l))
  {
    if DeletionCall(l) { DeletionHasNext(s, l); }
    else if OperatorCall(l) { OtherCallDoesNotDelete(s, l); }
    else { DeletionSafety.EventsDoNotTearDown(s, l); }
  }

  lemma DeletionHasNext(s: Sys, l: Label)
    requires DeletionCall(l) && AtDeletionCall(s, l) && (HasNext(s) || l.ListRuns?)
    ensures HasNext(DeletionStep(s, l))
  {
  }

  /****** Over whole runs ******/

  predicate PastListingAt(states: seq<Sys>, k: nat) { k < |states| && PastListing(states[k].phase) }

  /** At step `m` the call that is under way at `n` listed the runs. */
  predicate ListsFor(states: seq<Sys>, labels: seq<Label>, m: nat, n: nat) {
    m < n < |states| && m < |labels| && labels[m].ListRuns? && forall k :: m < k <= n ==> PastListingAt(states, k)
  }

  lemma CameFromListingAt(states: seq<Sys>, labels: seq<Label>, k: nat)
    requires IsRun(states, labels) && k < |labels| && PastListing(states[k + 1].phase)
    ensures PastListing(states[k].phase) || labels[k].ListRuns?
  {
    assert StepAt(states, labels, k);
    CameFromListing(states[k], labels[k]);
  }

  lemma {:induction false} TheCallHasListed(states: seq<Sys>, labels: seq<Label>, n: nat)
    requires IsRun(states, labels) && Init(states[0]) && PastListingAt(states, n)
    ensures exists m: nat :: ListsFor(states, labels, m, n)
  {
    CameFromListingAt(states, labels, n - 1);
    if labels[n - 1].ListRuns? {
      assert ListsFor(states, labels, n - 1, n);
    } else {
      TheCallHasListed(states, labels, n - 1);
      var m: nat :| ListsFor(states, labels, m, n - 1);
      assert ListsFor(states, labels, m, n);
    }
  }

  predicate OrderedSince(listing: Sys, s: Sys) { CancelledInOrder(s, PendingRuns(listing.cloud.runs)) && HasNext(s) }

  lemma OrderedFirst(states: seq<Sys>, labels: seq<Label>, m: nat)
    requires IsRun(states, labels) && m < |labels| && labels[m].ListRuns? && PastListing(states[m + 1].phase)
    ensures OrderedSince(states[m], states[m + 1])
  {
    assert StepAt(states, labels, m);
    ListingStarts(states[m], labels[m].o);
    StepHasNext(states[m], labels[m]);
  }

  lemma OrderedNext(states: seq<Sys>, labels: seq<Label>, m: nat, k: nat)
    requires IsRun(states, labels) && Init(states[0]) && m <= k < |labels| && OrderedSince(states[m], states[k])
    requires PastListing(states[k].phase) && PastListing(states[k + 1].phase)
    ensures OrderedSince(states[m], states[k + 1])
  {
    InitIsSafe(states[0]);
    RunIsSafe(states, labels, k);
    SafeTodo(states[k]);
    assert StepAt(states, labels, k);
    StepCancelsInOrder(states[k], labels[k], PendingRuns(states[m].cloud.runs));
    StepHasNext(states[k], labels[k]);
  }

  /** From the listing on, the pending runs are cancelled one after the other, in the order of the listing. */
  lemma {:induction false} CancelsInOrder(states: seq<Sys>, labels: seq<Label>, m: nat, n: nat)
    requires IsRun(states, labels) && Init(states[0]) && ListsFor(states, labels, m, n)
    ensures OrderedSince(states[m], states[n])
  {
    assert PastListingAt(states, n);
    if n == m + 1 {
      OrderedFirst(states, labels, m);
    } else {
      assert PastListingAt(states, n - 1);
      CancelsInOrder(states, labels, m, n - 1);
      OrderedNext(states, labels, m, n - 1);
    }
  }

  /** The listing misses no pending run, and has none that is not. */
  lemma {:induction false} ListingIsExact(runs: seq<Run>, i: nat)
    ensures i in PendingRuns(runs) <==> i < |runs| && IsPending(runs[i].status)
  {
    if runs != [] {
      ListingIsExact(runs[..|runs| - 1], i);
    }
  }

  /** Every run that was pending in the one state is cancelled in the other. */
  predicate PendingAreCancelled(listing: Sys, s: Sys) {
    forall i: nat :: i < |listing.cloud.runs| && IsPending(listing.cloud.runs[i].status) ==>
        CancelledAt(s.cloud.runs, i)
  }

  /** Before the finalizer goes because all was torn down, and before the workspace is deleted, every run that was
      pending at the listing of this call has been force-cancelled. */
  lemma PendingRunsWereCancelled(states: seq<Sys>, labels: seq<Label>, n: nat)
    requires IsRun(states, labels) && Init(states[0]) && PastListingAt(states, n) && !states[n].phase.Cancelling?
    ensures exists m: nat :: ListsFor(states, labels, m, n) && PendingAreCancelled(states[m], states[n])
  {
    TheCallHasListed(states, labels, n);
    var m: nat :| ListsFor(states, labels, m, n);
    CancelsInOrder(states, labels, m, n);
    OrderedIsCancelled(states[m], states[n]);
  }

  lemma OrderedIsCancelled(listing: Sys, s: Sys)
    requires CancelledInOrder(s, PendingRuns(listing.cloud.runs)) && !s.phase.Cancelling?
    ensures PendingAreCancelled(listing, s)
  {
    var pending := PendingRuns(listing.cloud.runs);
    forall i: nat | i < |listing.cloud.runs| && IsPending(listing.cloud.runs[i].status)
      ensures CancelledAt(s.cloud.runs, i)
    {
      ListingIsExact(listing.cloud.runs, i);
      var j :| 0 <= j < |pending| && pending[j] == i;
    }
  }

  /****** What the second look decides ******/

  /** The second look found the workspace: the call is tearing everything down. */
  predicate TearingDown(p: Phase) { p == ListingRuns || PastListing(p) }

  predicate Abandoning(p: Phase) { p == RemovingFinalizer(Unsure) }

  lemma DeletionCallStays(s: Sys, l: Label)
    requires DeletionCall(l) && AtDeletionCall(s, l) && DeletionStep(s, l).phase != Idle
    ensures TearingDown(s.phase) ==> TearingDown(DeletionStep(s, l).phase)
    ensures !Abandoning(s.phase)
  {
  }

  lemma RemovalEndsTheCall(s: Sys, l: Label)
    requires At(s, l) && OperatorCall(l) && !DeletionCall(l) && (TearingDown(s.phase) || Abandoning(s.phase))
    ensures l.WriteFinalizers? && s.phase.RemovingFinalizer? && Step(s, l).phase == Idle
  {
  }

  lemma WayStays(s: Sys, l: Label)
    requires At(s, l) && Step(s, l).phase != Idle && (TearingDown(s.phase) || Abandoning(s.phase))
    ensures TearingDown(s.phase) ==> TearingDown(Step(s, l).phase)
    ensures Abandoning(s.phase) ==> Abandoning(Step(s, l).phase) && !l.DeleteWorkspace?
  {
    if DeletionCall(l) { DeletionCallStays(s, l); }
    else if OperatorCall(l) { RemovalEndsTheCall(s, l); }
    else { DeletionSafety.EventsDoNotTearDown(s, l); }
  }

  predicate BusyFrom(states: seq<Sys>, m: nat, n: nat) { forall k :: m < k <= n ==> BusyAt(states, k) }

  predicate OnItsWay(s: Sys, found: bool) { if found then TearingDown(s.phase) else Abandoning(s.phase) }

  lemma WayNext(states: seq<Sys>, labels: seq<Label>, k: nat, found: bool)
    requires IsRun(states, labels) && k < |labels| && OnItsWay(states[k], found) && states[k + 1].phase != Idle
    ensures OnItsWay(states[k + 1], found) && (!found ==> !labels[k].DeleteWorkspace?)
  {
    assert StepAt(states, labels, k);
    WayStays(states[k], labels[k]);
  }

  lemma WayStarts(states: seq<Sys>, labels: seq<Label>, m: nat)
    requires IsRun(states, labels) && m < |labels| && labels[m].CheckAgain? && Present(states[m])
    ensures OnItsWay(states[m + 1], labels[m].o.Done?)
  {
    assert StepAt(states, labels, m);
    DeletionSafety.SecondLookDecides(states[m], labels[m].o);
  }

  lemma {:induction false} WayThroughout(states: seq<Sys>, labels: seq<Label>, m: nat, n: nat)
    requires IsRun(states, labels) && m < n < |states| && m < |labels| && labels[m].CheckAgain? && Present(states[m])
    requires BusyFrom(states, m, n)
    ensures OnItsWay(states[n], labels[m].o.Done?)
    ensures !labels[m].o.Done? ==> forall i :: m < i < n ==> !labels[i].DeleteWorkspace?
    decreases n
  {
    if n == m + 1 {
      WayStarts(states, labels, m);
    } else {
      WayThroughout(states, labels, m, n - 1);
      assert BusyAt(states, n);
      WayNext(states, labels, n - 1, labels[m].o.Done?);
    }
  }

  /** The deletion of the workspace was attempted between these two points. */
  predicate Attempted(labels: seq<Label>, m: nat, n: nat) {
    exists i :: m < i < n && i < |labels| && labels[i].DeleteWorkspace?
  }

  /** In a call whose second look comes while the workspace is there, the finalizer goes with the deletion of the
      workspace attempted if and only if that look succeeded; and then the runs were stopped and the destroy run ended
      well. */
  lemma SecondLookDecidesTheCall(states: seq<Sys>, labels: seq<Label>, m: nat, n: nat)
    requires IsRun(states, labels) && Init(states[0]) && m < n < |labels|
    requires labels[m].CheckAgain? && Present(states[m]) && BusyFrom(states, m, n) && labels[n].WriteFinalizers?
    ensures states[n].phase.RemovingFinalizer?
    ensures Attempted(labels, m, n) <==> labels[m].o.Done?
    ensures labels[m].o.Done? <==> DeletionSafety.Earned(states[n], states[n].phase.reason)
  {
    WayThroughout(states, labels, m, n);
    assert StepAt(states, labels, n);
    InitIsSafe(states[0]);
    RunIsSafe(states, labels, n);
    WayEnds(states[n], labels[n], labels[m].o.Done?);
    if labels[m].o.Done? {
      var i := DeletionSafety.DeletionWasAttempted(states, labels, n);
      assert StepAt(states, labels, m);
      assert states[m].phase == CheckingAgain;
      assert labels[i] != labels[m];
      assert m < i;
    }
  }

  lemma WayEnds(s: Sys, l: Label, found: bool)
    requires At(s, l) && l.WriteFinalizers? && OnItsWay(s, found) && PhaseInv(s)
    ensures s.phase.RemovingFinalizer? && (found <==> s.phase.reason.TornDown?)
    ensures found <==> DeletionSafety.Earned(s, s.phase.reason)
  {
  }
}

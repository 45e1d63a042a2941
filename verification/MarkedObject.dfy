/**
 Two runs from the start in which a deletion mark does not have the effect that it should: the second look fails,
 and the finalizer goes with a run under way; and the mark lands during a call, which goes on to create a run.
 */
module MarkedObject {
  import opened Options
  import opened Outcomes
  import opened Runs
  import opened Workspace
  import opened Machine
  import opened MachineInvariants
  import opened Safety
  import opened DeletionSafety
  import opened LostRun
  import opened Reaching
  import Finalizers

  /****** Marking ******/

  lemma MarkIsSet(s: Sys, obj: Object)
    requires Reached(s) && s.live.Some? && s.live.value.finalizers != []
    requires obj == s.live.value.(deleting := true, revision := s.live.value.revision + 1)
    ensures Reached(s.(live := Some(obj)))
  {
    Then(s, Mark);
  }

  /****** The second look fails ******/

  lemma MarkedCallComesToTheFirstLook(s: Sys)
    requires Reached(s) && s.phase == Idle && s.live.Some? && s.live.value.deleting
    ensures Reached(s.(mem := s.live.value, phase := CheckingExistence))
  {
    Then(s, Fetch(Done));
  }

  lemma FirstLookLeadsToTheSecond(s: Sys)
    requires Reached(s) && s.phase == CheckingExistence && s.mem.status.workspace.Some? && FINALIZER in s.mem.finalizers
    ensures Reached(s.(phase := CheckingAgain))
  {
    Then(s, CheckExistence(Done));
  }

  lemma SecondLookFails(s: Sys)
    requires Reached(s) && s.phase == CheckingAgain
    ensures Reached(s.(phase := RemovingFinalizer(Unsure)))
  {
    Then(s, CheckAgain(Refused));
  }

  /** Nothing was torn down: the workspace is there, with an apply run under way that nobody cancelled. */
  predicate LeftBehind(s: Sys) {
    && Present(s) && |s.cloud.runs| == 1
    && s.cloud.runs[0].kind.Apply? && IsPending(s.cloud.runs[0].status) && !s.cloud.runs[0].cancelled
  }

  /** The object is marked and anchored by the operator's finalizer only, and its run is under way. */
  predicate AboutToBeAbandoned(s: Sys) {
    && s.phase == Idle && s.live.Some? && s.live.value.deleting && s.live.value.finalizers == [FINALIZER]
    && LeftBehind(s.(mem := s.live.value))
  }

  lemma MarkedCallAbandons(s: Sys)
    requires Reached(s) && AboutToBeAbandoned(s)
    ensures Reached(s.(mem := s.live.value, phase := RemovingFinalizer(Unsure)))
  {
    var t := s.(mem := s.live.value);
    MarkedCallComesToTheFirstLook(s);
    FirstLookLeadsToTheSecond(t.(phase := CheckingExistence));
    SecondLookFails(t.(phase := CheckingAgain));
  }

  lemma RunningIsMarked(s: Sys)
    requires Reached(s) && s.phase == Idle && s.live.Some? && s.live.value.finalizers == [FINALIZER]
    requires LeftBehind(s.(mem := s.live.value))
    ensures exists t: Sys :: Reached(t) && AboutToBeAbandoned(t)
  {
    var obj := s.live.value.(deleting := true, revision := s.live.value.revision + 1);
    MarkIsSet(s, obj);
    assert AboutToBeAbandoned(s.(live := Some(obj)));
  }

  /** A run from the start leads to where the finalizer is taken off with everything left behind. */
  lemma AbandonmentIsReached()
    ensures exists s: Sys, l: Label :: Reached(s) && Enabled(s, l) && TakesFinalizer(s, Step(s, l)) && LeftBehind(s)
  {
    FirstRunIsRecorded();
    RunningIsMarked(Before(Idle, 3, Having(Some(0), PENDING), Requeue, [First(PENDING)]));
    var t: Sys :| Reached(t) && AboutToBeAbandoned(t);
    MarkedCallAbandons(t);
    TakingIsPossible(t.(mem := t.live.value, phase := RemovingFinalizer(Unsure)));
  }

  lemma TakingIsPossible(s: Sys)
    requires Reached(s) && s.phase == RemovingFinalizer(Unsure) && s.live == Some(s.mem)
    requires s.mem.finalizers == [FINALIZER] && LeftBehind(s)
    ensures exists l: Label :: Reached(s) && Enabled(s, l) && TakesFinalizer(s, Step(s, l)) && LeftBehind(s)
  {
    var l := WriteFinalizers(Finalizers.Left(s.mem.finalizers, FINALIZER), Done);
    assert Finalizers.Left([FINALIZER], FINALIZER) == [];
    assert Enabled(s, l) && TakesFinalizer(s, Step(s, l));
  }

  /****** The mark lands during a call ******/

  /** The step creates an apply run for an object that is marked. */
  predicate CreatesForMarked(s: Sys, l: Label, t: Sys) {
    && s.live.Some? && s.live.value.deleting && l.CreateRun? && l.o.Done?
    && |t.cloud.runs| == |s.cloud.runs| + 1 && t.cloud.runs[|s.cloud.runs|].kind.Apply?
  }

  /** A run from the start leads to where an apply run is created for a marked object. */
  lemma CreationForMarkedIsReached()
    ensures exists s: Sys, l: Label :: Reached(s) && Enabled(s, l) && CreatesForMarked(s, l, Step(s, l))
  {
    var due := Before(CreatingRun(None), 2, Having(None, NoStatus), Nothing, []);
    FirstRunIsDue();
    var marked := Resource(2, Bare(true, []), [FINALIZER], Having(None, NoStatus)).(deleting := true, revision := 3);
    MarkIsSet(due, marked);
    CreatingIsPossible(due.(live := Some(marked)));
  }

  lemma CreatingIsPossible(s: Sys)
    requires Reached(s) && s.phase.CreatingRun? && s.live.Some? && s.live.value.deleting
    ensures exists l: Label :: Reached(s) && Enabled(s, l) && CreatesForMarked(s, l, Step(s, l))
  {
    var l := CreateRun(PENDING, Done);
    assert Enabled(s, l) && CreatesForMarked(s, l, Step(s, l));
  }
}

/**
 A run that leaves old outputs behind: the second apply run is created, but the answer is lost.  The next call
 adopts the run with the status of the first one, so it does not wait for it, and settles while it changes the state.
 */
module LostRun {
  import opened Options
  import opened Outcomes
  import opened Runs
  import opened Machine
  import opened MachineInvariants
  import opened Safety
  import opened Mirroring
  import opened Reaching
  import Outputs
  import RunTriggers

  const PENDING := Active("pending")

  const NO_TRIGGERS := RunTriggers.Remote(map[], 0)

  const ONE_TRIGGER := RunTriggers.Remote(map[0 := "other"], 1)

  const PUBLISHED: Option<map<string, string>> := Some(map[])

  function Having(run: Option<nat>, status: RunStatus): Status { Status(Some(0), run, status, None, []) }

  function First(status: RunStatus): Run { Run(Apply(None), status, true, false) }

  function Unheard(): Run { Run(Apply(None), PENDING, false, false) }

  /** A point of the run before the spec asks for a trigger. */
  function Before(phase: Phase, revision: nat, st: Status, returned: Result, runs: seq<Run>): Sys {
    Scene(phase, Resource(revision, Bare(true, []), [FINALIZER], st), returned, Server(runs, [], NO_TRIGGERS),
          Neighbours(None, PUBLISHED), 0)
  }

  /** A point of the run after that. */
  function After(phase: Phase, revision: nat, st: Status, returned: Result, runs: seq<Run>, held: RunTriggers.Remote,
      lost: nat): Sys {
    Scene(phase, Resource(revision, Bare(true, ["other"]), [FINALIZER], st), returned, Server(runs, [], held),
          Neighbours(None, PUBLISHED), lost)
  }

  lemma ComesToTriggers(s: Sys)
    requires Reached(s) && Quiet(s) && s.phase == Notifying && s.mem.spec.vcs
    ensures Reached(s.(phase := SyncingTriggers(false), cluster := s.cluster.(secret := PUBLISHED)))
  {
    ComesToTheSpec(s);
    NoVariablesToSync(s.(phase := SyncingVariables(false), cluster := s.cluster.(secret := PUBLISHED)));
  }

  /****** The first run is created, recorded, and ends well ******/

  lemma FirstCallLooksForVersions()
    ensures Reached(Before(ListingVersions, 2, Having(None, NoStatus), Nothing, []))
  {
    FirstCallComesToNotifying(Bare(true, []));
    ComesToTriggers(Known(Notifying, 2, Bare(true, []), [FINALIZER]));
    assert RunTriggers.Plan([], []) == [];
    Then(Before(SyncingTriggers(false), 2, Having(None, NoStatus), Nothing, []), SyncTriggers([], [], true));
  }

  lemma FirstRunIsDue()
    ensures Reached(Before(CreatingRun(None), 2, Having(None, NoStatus), Nothing, []))
  {
    FirstCallLooksForVersions();
    Then(Before(ListingVersions, 2, Having(None, NoStatus), Nothing, []), ListVersions(Done));
  }

  lemma FirstRunIsCreated()
    ensures Reached(Before(RecordingRun(0, PENDING), 2, Having(None, NoStatus), Nothing, [Unheard()]))
  {
    FirstRunIsDue();
    assert [] + [Unheard()] == [Unheard()];
    Then(Before(CreatingRun(None), 2, Having(None, NoStatus), Nothing, []), CreateRun(PENDING, Done));
  }

  lemma FirstRunIsRecorded()
    ensures Reached(Before(Idle, 3, Having(Some(0), PENDING), Requeue, [First(PENDING)]))
  {
    FirstRunIsCreated();
    assert [Unheard()][0 := First(PENDING)] == [First(PENDING)];
    Then(Before(RecordingRun(0, PENDING), 2, Having(None, NoStatus), Nothing, [Unheard()]),
         WriteStatus(Having(Some(0), PENDING), Done));
  }

  lemma FirstRunEnds()
    ensures Reached(Before(Idle, 3, Having(Some(0), PENDING), Requeue, [First(Applied)]))
  {
    FirstRunIsRecorded();
    assert Advanced([First(PENDING)], [Applied]) == [First(Applied)];
    Then(Before(Idle, 3, Having(Some(0), PENDING), Requeue, [First(PENDING)]), Advance([Applied]));
  }

  lemma FirstRunIsRead()
    ensures Reached(Before(ReadingRun, 3, Having(Some(0), PENDING), Requeue, [First(Applied)]))
  {
    FirstRunEnds();
    CallComesToNotifying(Before(Idle, 3, Having(Some(0), PENDING), Requeue, [First(Applied)]));
    var s := Before(Notifying, 3, Having(Some(0), PENDING), Requeue, [First(Applied)]);
    assert AllowedNotify(s, [], [], [], true);
    Then(s, Notify([], [], [], true));
  }

  lemma FirstRunHasEnded()
    ensures Reached(Before(StoringRunStatus(Applied), 3, Having(Some(0), PENDING), Requeue, [First(Applied)]))
  {
    FirstRunIsRead();
    Then(Before(ReadingRun, 3, Having(Some(0), PENDING), Requeue, [First(Applied)]), ReadRun(Done));
  }

  lemma FirstRunIsSeenApplied()
    ensures Reached(Before(Idle, 4, Having(Some(0), Applied), Requeue, [First(Applied)]))
  {
    FirstRunHasEnded();
    StatusIsWritten(Before(StoringRunStatus(Applied), 3, Having(Some(0), PENDING), Requeue, [First(Applied)]),
                    Having(Some(0), Applied));
  }

  /****** A trigger is added to the spec, and the run for it is lost ******/

  lemma TriggerIsAdded()
    ensures Reached(Before(Idle, 4, Having(Some(0), Applied), Requeue, [First(Applied)]).(
                      live := Some(Resource(5, Bare(true, ["other"]), [FINALIZER], Having(Some(0), Applied)))))
  {
    FirstRunIsSeenApplied();
    assert [] + [FINALIZER] + [] == [FINALIZER];
    Then(Before(Idle, 4, Having(Some(0), Applied), Requeue, [First(Applied)]), Edit(Bare(true, ["other"]), [], []));
  }

  lemma TriggerIsDue()
    ensures Reached(After(SyncingTriggers(false), 5, Having(Some(0), Applied), Requeue, [First(Applied)],
                          NO_TRIGGERS, 0))
  {
    TriggerIsAdded();
    CallComesToNotifying(Before(Idle, 4, Having(Some(0), Applied), Requeue, [First(Applied)]).(
                           live := Some(Resource(5, Bare(true, ["other"]), [FINALIZER], Having(Some(0), Applied)))));
    ComesToTriggers(After(Notifying, 5, Having(Some(0), Applied), Requeue, [First(Applied)], NO_TRIGGERS, 0));
  }

  lemma TriggerIsMade()
    ensures Reached(After(ListingVersions, 5, Having(Some(0), Applied), Requeue, [First(Applied)], ONE_TRIGGER, 0))
  {
    TriggerIsDue();
    var create := RunTriggers.Create("other");
    assert RunTriggers.Creates(["other"], []) == [create] by {
      assert ["other"][..0] == [];
      assert RunTriggers.Creates([], []) + [create] == [create];
    }
    assert RunTriggers.ApplyAll(NO_TRIGGERS, [create]) == ONE_TRIGGER by {
      assert [create][..0] == [];
    }
    Then(After(SyncingTriggers(false), 5, Having(Some(0), Applied), Requeue, [First(Applied)], NO_TRIGGERS, 0),
         SyncTriggers([], [create], true));
  }

  lemma SecondRunIsDue()
    ensures Reached(After(CreatingRun(None), 5, Having(Some(0), Applied), Requeue, [First(Applied)], ONE_TRIGGER, 0))
  {
    TriggerIsMade();
    Then(After(ListingVersions, 5, Having(Some(0), Applied), Requeue, [First(Applied)], ONE_TRIGGER, 0),
        ListVersions(Done));
  }

  lemma SecondRunIsLost()
    ensures Reached(After(Idle, 5, Having(Some(0), Applied), Error, [First(Applied), Unheard()], ONE_TRIGGER, 1))
  {
    SecondRunIsDue();
    assert [First(Applied)] + [Unheard()] == [First(Applied), Unheard()];
    Then(After(CreatingRun(None), 5, Having(Some(0), Applied), Requeue, [First(Applied)], ONE_TRIGGER, 0),
        CreateRun(PENDING, Lost));
  }

  /****** The next call adopts it, and settles ******/

  lemma SecondRunIsFound()
    ensures Reached(After(AdoptingRun(1), 5, Having(Some(0), Applied), Error, [First(Applied), Unheard()],
                          ONE_TRIGGER, 1))
  {
    SecondRunIsLost();
    CallReadsTheObject(After(Idle, 5, Having(Some(0), Applied), Error, [First(Applied), Unheard()], ONE_TRIGGER, 1));
    Then(After(ReadingWorkspace, 5, Having(Some(0), Applied), Error, [First(Applied), Unheard()], ONE_TRIGGER, 1),
         ReadWorkspace(Done));
  }

  lemma SecondRunIsAdopted()
    ensures Reached(After(Notifying, 6, Having(Some(1), Applied), Error, [First(Applied), Unheard()], ONE_TRIGGER, 1))
  {
    SecondRunIsFound();
    StatusIsWritten(After(AdoptingRun(1), 5, Having(Some(0), Applied), Error, [First(Applied), Unheard()],
        ONE_TRIGGER, 1),
                    Having(Some(1), Applied));
  }

  /** The point at which the last call settles, unless something happens before. */
  function AboutToSettle(): Sys {
    After(SyncingTriggers(false), 6, Having(Some(1), Applied), Error, [First(Applied), Unheard()], ONE_TRIGGER, 1)
  }

  lemma CallGoesOnWithoutWaiting()
    ensures Reached(AboutToSettle())
  {
    SecondRunIsAdopted();
    ComesToTriggers(After(Notifying, 6, Having(Some(1), Applied), Error, [First(Applied), Unheard()], ONE_TRIGGER, 1));
  }

  lemma StateIsMade(state: map<string, string>)
    ensures Reached(AfterChange(AboutToSettle(), state))
  {
    CallGoesOnWithoutWaiting();
    assert IsPending(AboutToSettle().cloud.runs[1].status);
    Then(AboutToSettle(), Change(state));
  }

  /** The call ends settled, without an error, but what is published is not the state. */
  predicate SettlesStale(s: Sys, t: Sys) {
    Settles(s, t) && !IsError(t.mem.status.runStatus) && !Outputs.Canonical(t.mem.status.outputs, t.cloud.state)
  }

  /** Whatever outputs the lost run makes, the call that adopts it can settle without them. */
  lemma LostRunLeavesOldOutputs(state: map<string, string>)
    requires state != map[]
    ensures exists s: Sys, l: Label ::
              Reached(s) && Enabled(s, l) && SettlesStale(s, Step(s, l)) && s.cloud.state == state
  {
    var s := AfterChange(AboutToSettle(), state);
    StateIsMade(state);
    var listed := [RunTriggers.Listed(0, "other")];
    NothingToTrigger(listed);
    assert Enabled(s, SyncTriggers(listed, [], true));
    assert SettlesStale(s, Step(s, SyncTriggers(listed, [], true)));
  }

  lemma NothingToTrigger(listed: seq<RunTriggers.Listed>)
    requires listed == [RunTriggers.Listed(0, "other")]
    ensures RunTriggers.Lists(listed, ONE_TRIGGER) && RunTriggers.Plan(["other"], listed) == []
    ensures RunTriggers.Creates(["other"], listed) == []
  {
    assert listed[..0] == [] && ["other"][..0] == [];
    assert RunTriggers.Has(listed, "other") by { assert listed[0] in listed; }
    assert RunTriggers.Creates([], listed) == [] && RunTriggers.Deletes(["other"], []) == [];
  }
}

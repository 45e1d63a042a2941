# A model of the Terraform Cloud workspace operator

The operator reconciles `Workspace` objects of a Kubernetes cluster with workspaces of Terraform Cloud.  Each call
of `Reconcile` reads the object, makes API calls, and writes back what it learnt; crashes, failed calls, users and the
server come in between.  This project models that engine in Dafny and proves what it keeps, where it ends, and where it
does not do what one would expect.

Three layers say the same thing in three ways.

* **The parts.** The diff-and-sync loops (`Variables`, `VariableSync`, `SentValues`, `RunTriggers`, `Notifications`), the
  rendering and publication of outputs (`Json`, `Rendering`, `RoundTrip`, `Decoding`, `Amounts`, `Quoting`, `Outputs`), the
  template (`Template`, `TemplateShapes`, `TemplateText`) and the finalizer list (`Finalizers`).  Each has a specification
  function, methods or classes that change things step by step as the code does and are proved against it, and lemmas about
  the function.
* **The machine** (`Machine`).  A state is the object in the cluster, the operator's copy of it, what the server and the
  cluster hold, and the API call that is due next.  A step is one API call, whose outcome may be success, refusal, or
  success that is not heard of; or a crash; or a move of the server or of a user.  `MachineInvariants` to `MachineSafety` show
  what every step keeps.  `Safety`, `DeletionSafety`, `Cancellation`, `Mirroring`, `SettledCalls`, `Results`, `Reasons`, `OnRecord`,
  `SpecDemands`, `PublishedOutputs`, `Calm`, `Quiescence`, `Fixpoint`, `SettledRuns`, `Convergence`, `CallsEnd`, `HoldingVersion`,
  `LostRun` and `MarkedObject` show what follows for whole runs.
* **The operator** (`Operator`).  A class whose methods change the object in memory, call the APIs through the parts and
  write the object back in the order of the source.  Every execution of its `Reconcile`, to whatever point it comes, is a run of
  the machine, so all theorems about runs hold of it.

`dafny verify dfyconfig.toml` checks everything.

## Findings

Where the code does not do what its shape suggests, there is a lemma with the input, and the exact condition under which it does.

* A VCS workspace that holds a configuration version never comes to rest: every call that is not waiting for a run creates
  another one (`HoldingVersion.NeverSettles`, `AnotherRunIsCreated`; `HoldingIsReached` shows the way there from a new object).
  `Calm.Runnable` excludes that state, besides specs with neither a module nor a repository, or with a variable twice; then
  reconciliation converges.
* When an apply run is created and the answer is lost, the next call adopts the run with the status of an older one, does not wait
  for it, and can settle on outputs that the run is about to replace (`LostRun.LostRunLeavesOldOutputs`).  Published outputs are
  those of the moment exactly if the state has not changed since the call read it, and sure to stay so exactly if every run has ended.
* If the second existence check fails, the finalizer is taken off with nothing cancelled, destroyed or deleted
  (`DeletionSafety.FailedSecondLookAbandons`; `MarkedObject.AbandonmentIsReached` leads there from a new object, with a run under
  way).  While the workspace is there, that check alone decides (`Cancellation.SecondLookDecidesTheCall`).
* A deletion mark that lands during a call does not stop it from creating a run (`DeletionSafety.MarkDoesNotStopTheCall`;
  `MarkedObject.CreationForMarkedIsReached` leads there).
* `remove` shrinks the slice that it ranges over.  It indexes out of range exactly if the string stands last and before
  (`Finalizers.Remove`), and leaves exactly the others if and only if it nowhere stands twice in a row.
  Neither can happen to the operator's finalizer (`Safety.RemovalIsExact`).
* A notification whose name is taken by another that matches the spec is not created; the sync converges exactly if there is none
  such (`Notifications.ConvergesExactlyIfNoneHidden`), as when the names of the spec are distinct.
* With line breaks in its fields, two different specs render to the same template, so a change goes unseen
  (`Template.LineBreaksHideDifferences`).  A change of one field alone always shows, and so does any change that keeps the lengths
  of all fields, line breaks or not (`TemplateShapes`).
* Published text is JSON for its value if and only if nothing in the value is printed in Go's way only: string attributes of objects
  (printed bare), quoted null strings, strings that themselves hold JSON, control characters without an escape in JSON, and
  characters beyond the Basic Multilingual Plane that are not printable (`RoundTrip.PublishedTextReadsBack`).
* `prepareModuleRun` takes the run's options by value, so the request to create a run never carries the configuration version.
  In the machine, the version of a run is the one that was cleared from the status for it.
* `README.md` of the repository says that mounted files override sensitive values; the code reads a file only if the value is empty,
  and so does the model (`SentValues.RetrieveIsExact`).
* A variable that is not sensitive on the server, but in the spec, becomes sensitive exactly if its value or HCL flag changes with it
  (`SentValues.MarkedExactlyIfItDiffered`); otherwise it stays readable.  If the spec leaves its value to a mounted file, it is emptied,
  and the file is not read (`SentValues.BecomingSensitiveEmpties`).
* A string output that holds a list, or null, and one closing bracket too many is printed as that, and all that comes after it is lost
  (`Decoding.StrayBracketCuts`).

## Model

| member | source | states |
|---|---|---|
| `Convergence.ReconciliationConverges` | workspacehelper/workspace_helper.go:461-548 | once nothing fails and nobody edits: at most one more apply run is ever created, the sixth call that begins with the server at rest ends at the fixpoint at the latest, and from there on nothing is written and every call asks to be called again after a while |
| `Convergence.SixCallsReachTheFixpoint` | workspacehelper/workspace_helper.go:461-548 | of consecutive calls that begin with uploads processed and tracked runs over, the sixth settles with status, template, variables, triggers, notifications, outputs and finalizer all in place |
| `Convergence.RankRunsOut` | workspacehelper/workspace_helper.go:485-547 | each such call uses up some of the rank: what is owed first, then whether a run is taken to be under way |
| `Convergence.CallFindsWorkspace` | workspacehelper/workspace_helper.go:130-143 | after one undisturbed call the workspace is there, and stays |
| `Quiescence.AtMostOneMoreRun` | workspacehelper/workspace_helper.go:411-445 | from a calm idle point on, no two apply runs are ever created |
| `Quiescence.NoRunWhenNothingIsOwed` | workspacehelper/workspace_helper.go:527-547 | and none at all if spec and referenced values are already mirrored, a run is on record, and no version is held |
| `Quiescence.CallDescends` | workspacehelper/workspace_helper.go:461-548 | a call that begins with the server at rest settles with nothing owed, or ends at a lower rank |
| `Quiescence.RankNeverRises` | workspacehelper/workspace_helper.go:461-548 | between two idle points of a calm run the rank has not risen |
| `Quiescence.AtMostFiveUnsettledCalls` | workspacehelper/workspace_helper.go:461-548 | at most five of the calls that begin with the server at rest end otherwise than settled |
| `SettledRuns.NextCallReachesFixpoint` | workspacehelper/workspace_helper.go:461-548 | when nothing is owed, every run has ended and the workspace is there, the very next call settles at the fixpoint |
| `SettledRuns.FixpointIsForGood` | workspacehelper/workspace_helper.go:461-548 | from the fixpoint on no step writes the object, its neighbours, or any collection of the server, and no run or version is created |
| `SettledRuns.CallsSettleForGood` | workspacehelper/workspace_helper.go:547 | and every call returns the request to look again after a while |
| `HoldingVersion.NeverSettles` | workspacehelper/workspace_helper.go:393-409 | a VCS workspace with a held configuration version: however long it is left alone, no call settles |
| `HoldingVersion.AnotherRunIsCreated` | workspacehelper/workspace_helper.go:527-545 | each call that has synced everything goes on to create one more apply run |
| `HoldingVersion.HoldingIsReached` | workspacehelper/workspace_helper.go:330-391 | a run from a new object reaches that state: a version is stored, and the spec is changed to a VCS repository while it waits |
| `CallsEnd.EveryStepNears` | workspacehelper/workspace_helper.go:461-548 | every API call, whatever becomes of it, brings Reconcile nearer to its end, except a poll of a destroy run that is not over |
| `CallsEnd.DeletionIsRestartable` | workspacehelper/workspace_helper.go:178-204 | whatever was cut short before, the next undisturbed call removes the finalizer of a marked object, also when the workspace is gone, unless the destroy run errors |
| `MachineSafety.StepKeeps` | workspacehelper/workspace_helper.go:95-128 | every step, with failures, lost answers, crashes and edits, keeps the invariant on the copy, the object, runs, versions, and what the call knows at each point |
| `Safety.RunIsSafe` | workspacehelper/workspace_helper.go:461-548 | so it holds in every state of every run |
| `Safety.ActiveRunsAreBounded` | workspacehelper/workspace_helper.go:411-445 | apply runs under way number at most one and one for each run whose record was lost |
| `Safety.LostIsCounted` | workspacehelper/workspace_helper.go:427-442 | a record is lost exactly when the creation of a run is unheard of, or the status write after it fails or is cut off by a crash |
| `Safety.RunStatusIsAnObservation` | workspacehelper/workspace_helper.go:156-166 | the status of the run is a past observation of the tracked run or the final one of an older run, and no recorded run is under way untracked |
| `Safety.FinalizerStandsForAWorkspace` | workspacehelper/workspace_helper.go:82-93 | the finalizer is there at most once, and only with a stored workspace id that the server handed out |
| `Safety.RemovalIsExact` | workspacehelper/workspace_helper.go:197 | so removing it stays in bounds and leaves exactly the other finalizers in order |
| `Safety.NoVersionIsCreatedWhileOneIsHeld` | workspacehelper/workspace_helper.go:330-366 | no configuration version is created while the status holds one, in memory or in the cluster |
| `Safety.RunComesAfterClearing` | workspacehelper/workspace_helper.go:368-391 | a run for a version is created only when the version is off the stored status, had been stored there, and was seen uploaded |
| `Safety.EachVersionRunsOnce` | workspacehelper/workspace_helper.go:330-391 | each version makes at most one run, only after it was uploaded, and none while the status holds it |
| `DeletionSafety.FinalizerGoesOnlyWhenEarned` | workspacehelper/workspace_helper.go:60-80 | the finalizer goes only from a marked object whose workspace was found absent, or was torn down with the destroy run ended well, or when the second look failed |
| `DeletionSafety.DeletionWasAttempted` | workspacehelper/workspace_helper.go:60-80 | before it goes because all was torn down, the deletion of the workspace was attempted, with runs stopped and the destroy run ended well |
| `Cancellation.SecondLookDecidesTheCall` | workspacehelper/workspace_helper.go:60-80 | in a call whose second look comes while the workspace is there, the finalizer goes with the deletion of the workspace attempted, the runs stopped and the destroy run ended well if and only if that look succeeded |
| `MarkedObject.AbandonmentIsReached` | workspacehelper/workspace_helper.go:60-65 | a run from a new object leads to where the finalizer is taken off with the workspace there and its run under way, not cancelled |
| `MarkedObject.CreationForMarkedIsReached` | workspacehelper/workspace_helper.go:471-545 | a run from a new object leads to where an apply run is created for a marked object |
| `DeletionSafety.FailedSecondLookAbandons` | workspacehelper/workspace_helper.go:60-65 | when that look fails, the next call takes the finalizer off with the cloud untouched |
| `DeletionSafety.NothingIsCreatedOnceMarked` | workspacehelper/workspace_helper.go:178-204 | once an object is marked and no other call is under way, no apply run and no workspace is ever created |
| `DeletionSafety.CreationIsForAnUnmarkedCopy` | workspacehelper/workspace_helper.go:471-483 | a call that creates a run or a workspace had read the object unmarked |
| `DeletionSafety.MarkDoesNotStopTheCall` | workspacehelper/workspace_helper.go:471-483 | but a mark that lands during a call does not stop it from creating its run |
| `Cancellation.PendingRunsWereCancelled` | workspacehelper/tfc_run.go:82-100 | when a deletion is past cancelling, every run that was pending at the listing of this call has been force-cancelled |
| `Cancellation.CancelsInOrder` | workspacehelper/tfc_run.go:82-100 | from the listing on, the pending runs are cancelled one after the other, in the order of the listing |
| `Cancellation.ListingIsExact` | workspacehelper/tfc_run.go:57-75 | the runs to be cancelled are exactly the pending ones |
| `Runs.FinalTexts` | workspacehelper/tfc_run.go:57-80 | a status text is pending unless it is empty or one of applied, planned_and_finished, errored, canceled and discarded; errored alone is an error |
| `Mirroring.SettledMirrorsTheSpec` | workspacehelper/workspace_helper.go:485-547 | whenever Reconcile settles, notifications, template, variables and triggers mirror the spec, the Secret shows the outputs of the status, a run is on record that is not pending, and no version is held |
| `Mirroring.OnlyTriggersSettle` | workspacehelper/workspace_helper.go:516-547 | a call settles only where the last sync found nothing to run for |
| `Mirroring.StepMirrors` | workspacehelper/workspace_helper.go:229-328 | what a call has brought into step stays so to its end, whatever else happens meanwhile |
| `SettledCalls.ChangesDecideOnARun` | workspacehelper/workspace_helper.go:507-547 | a call that has synced everything settles if and only if the ConfigMap held the text before, no update of a variable was sent and no trigger created, a run is on record and no version is held; otherwise it goes on to make a run |
| `SettledCalls.SettledCallsFoundNoChange` | workspacehelper/workspace_helper.go:507-547 | so in a call that settles the ConfigMap held the text already, no plain remote variable differed from the spec, and no trigger of the spec was missing, each at the moment of its sync |
| `Results.ResultsAreExact` | workspacehelper/workspace_helper.go:461-548 | a call returns an error exactly if an API call did not go through, save the second look and the deletion of the workspace, or the operator refuses to go on; nothing exactly if the object or its finalizer is gone; and a request to be repeated exactly if it has news of a run or waits for a run, a version or a repository |
| `Reasons.WritesAreNews` | workspacehelper/workspace_helper.go:130-267 | every write of the status changes it: another workspace and with it no outputs, or other outputs, or the version now held or no longer, or the run or its status; and nothing else |
| `Reasons.EveryRunIsSupplied` | workspacehelper/workspace_helper.go:330-445 | every apply run was made from a version whose files were sent, or from a repository that has delivered one; and a destroy run is never the first |
| `Reasons.CallsAreCalledFor` | workspacehelper/workspace_helper.go:178-409 | nothing is torn down unless the finalizer is on the list; runs are read while they are pending, outputs only if none is pending and none failed; templates and versions are for modules, repositories for the rest |
| `OnRecord.CallsActOnWhatIsOnRecord` | workspacehelper/workspace_helper.go:130-176 | before a call syncs or reads anything or makes a run, the status has the id of the server's workspace, a run on record is its latest, and the finalizer is on the object |
| `OnRecord.SettledCallsTrackTheLatestRun` | workspacehelper/workspace_helper.go:156-166 | whatever was lost before, a call settles with the server's latest run on record |
| `SpecDemands.WantedIsAsked` | workspacehelper/workspace_helper.go:288-307 | the variables to be synced are those of the spec, in order, each with its value; there are none, but an error, exactly if one has no value |
| `SpecDemands.TextIsAsked` | workspacehelper/workspace_helper.go:269-286 | the template to be written has the lines that the spec and the object's own name ask for |
| `PublishedOutputs.SettledShowsTheStateRead` | workspacehelper/workspace_helper.go:244-266 | when a call settles on a run without error, status and Secret show the state that this call read; they show the state of the moment exactly if that has not changed, and it has not if every run had ended |
| `PublishedOutputs.SettledIsCurrentUnlessLost` | workspacehelper/workspace_helper.go:244-266 | as long as no run was lost, status and Secret show the state of the moment |
| `PublishedOutputs.CurrentForGoodExactlyIfEnded` | workspacehelper/workspace_helper.go:244-266 | published outputs are sure to go on showing the state exactly if no run is under way |
| `LostRun.LostRunLeavesOldOutputs` | workspacehelper/workspace_helper.go:156-166 | whatever outputs a lost run makes, the call that adopts it can settle without them |
| `Operator.WorkspaceHelper.Reconcile` | workspacehelper/workspace_helper.go:461-548 | every execution extends the run of the machine by one call, through one reading of the object, and returns what the machine records |
| `Operator.WorkspaceHelper.InitializeReconciliation` | workspacehelper/workspace_helper.go:95-128 | the object is read anew, and leads to deletion or to the workspace by its mark |
| `Operator.WorkspaceHelper.CondDeleteWorkspace` | workspacehelper/workspace_helper.go:178-204 | an unmarked object goes on; for a marked one the call ends, deleted or failed |
| `Operator.WorkspaceHelper.FinalizeWorkspace` | workspacehelper/workspace_helper.go:60-80 | the steps of the machine from the second look to the deletion of the workspace |
| `Operator.WorkspaceHelper.DeleteRuns` | workspacehelper/tfc_run.go:82-100 | the listed runs that are pending are cancelled in order, and the call goes on to the current run |
| `Operator.WorkspaceHelper.DeleteResources` | workspacehelper/tfc_run.go:102-130 | a destroy run is created if there was a run, and polled until it is over |
| `Operator.WorkspaceHelper.AwaitDestroy` | workspacehelper/tfc_run.go:119-129 | the polling ends with the run over and not errored, with an error, or with the operator stopped |
| `Operator.WorkspaceHelper.ReconcileWorkspace` | workspacehelper/workspace_helper.go:130-176 | workspace, stored id, adopted run and finalizer, in that order, or an error |
| `Operator.WorkspaceHelper.CheckWorkspace` | workspacehelper/tfc_org.go:170-213 | the workspace is found, or created, and its id and current run are handed on |
| `Operator.WorkspaceHelper.AddFinalizer` | workspacehelper/workspace_helper.go:82-93 | the finalizer is appended and written |
| `Operator.WorkspaceHelper.ReconcileNotifications` | workspacehelper/workspace_helper.go:447-459 | the sync of notifications is the machine's step |
| `Operator.WorkspaceHelper.RunInProgress` | workspacehelper/workspace_helper.go:206-227 | a pending run is read and its changed status written, and the call ends; otherwise it goes on |
| `Operator.WorkspaceHelper.CheckRun` | workspacehelper/tfc_run.go:46-55 | the status read is that of the tracked run, and the empty one if there is none |
| `Operator.WorkspaceHelper.ProcessFinishedRun` | workspacehelper/workspace_helper.go:229-267 | an errored run is left alone; otherwise outputs are read, stored if they changed, and published |
| `Operator.WorkspaceHelper.CheckOutputs` | workspacehelper/tfc_output.go:161-182 | the call goes on to store the outputs exactly if they differ from those of the status |
| `Operator.WorkspaceHelper.UpdateTerraformTemplate` | workspacehelper/workspace_helper.go:269-286 | a VCS workspace has no template; otherwise it is rendered and written, and a change is reported |
| `Operator.WorkspaceHelper.UpdateVariables` | workspacehelper/workspace_helper.go:288-313 | variables are resolved and synced; what is reported decides on a run as `SettledCalls.ChangesDecideOnARun` says |
| `Operator.WorkspaceHelper.UpdateRunTriggers` | workspacehelper/workspace_helper.go:315-328 | triggers are synced, and a creation is reported |
| `Operator.WorkspaceHelper.PrepareModuleRun` | workspacehelper/workspace_helper.go:330-391 | a version is created, sent and stored if none is held, and cleared once it is read as uploaded; until then the call is repeated |
| `Operator.WorkspaceHelper.PrepareVCSRun` | workspacehelper/workspace_helper.go:393-409 | without a version of the repository the call is repeated |
| `Operator.WorkspaceHelper.StartRun` | workspacehelper/workspace_helper.go:411-445 | a run is prepared, created and recorded, and the call asks to be repeated |
| `Variables.PlanConverges` | workspacehelper/tfc_variable.go:148-177 | after an error-free sync the remote keys are those of the spec, once each, and every variable that is not sensitive has the spec's trimmed value and HCL flag |
| `Variables.NoCallsWhenMirrored` | workspacehelper/tfc_variable.go:148-177 | a sync makes no call and reports nothing if and only if the variables already mirror the spec |
| `Variables.UpdatedExactlyIfSomeDiffered` | workspacehelper/tfc_variable.go:81-177 | an error-free sync reports an update exactly if some remote variable that is not sensitive differed in value or HCL flag |
| `Variables.UpdatesWhich` | workspacehelper/tfc_variable.go:94-146 | the update list names each remote variable at most once: the changed ones that are not sensitive, and all listed sensitive ones or, if none changed, nothing |
| `Variables.RoundKeeps` | workspacehelper/tfc_variable.go:110-128 | one sync that stops anywhere keeps keys distinct, and each sensitive variable whose key is in the spec sensitive |
| `Variables.SensitiveForever` | workspacehelper/tfc_variable.go:110-128 | over any sequence of syncs a sensitive variable stays sensitive as long as its key stays in the spec |
| `Variables.PlanIsProper` | workspacehelper/tfc_variable.go:148-177 | no call of a sync makes two variables share a key |
| `Variables.SettingRestates` | workspacehelper/tfc_variable.go:22-42 | a variable is taken over from the spec field by field; of its value exactly one newline at the end is left out |
| `SentValues.RetrieveIsExact` | workspacehelper/tfc_variable.go:228-243 | a value that is not empty is never replaced and never makes the lookup fail; an empty sensitive one is the file's content, and the lookup fails exactly if there is none |
| `SentValues.EveryCallIsRight` | workspacehelper/tfc_variable.go:52-146 | wherever a sync stops: every create and every update of a sensitive variable carries the spec's value if that is not empty and the file's otherwise, every other update the spec's value and flags, and only what the spec lacks is deleted |
| `SentValues.FailsExactlyIfNeededLacks` | workspacehelper/tfc_variable.go:110-146 | a sync fails for want of a file exactly if a variable to be created, or a sensitive one sent along with a change of another, has neither value nor file |
| `SentValues.CreatedHoldTheirValues` | workspacehelper/tfc_variable.go:245-264 | after an error-free sync the server holds what was created as the spec has it, with that value |
| `SentValues.SensitiveHoldTheirValues` | workspacehelper/tfc_variable.go:110-128 | and, if any variable had changed, every sensitive one with that value too |
| `SentValues.UpdatesArrive` | workspacehelper/tfc_variable.go:209-226 | what was updated is as it was sent, and what was not is as it was |
| `SentValues.MarkedExactlyIfItDiffered` | workspacehelper/tfc_variable.go:81-108 | a variable that the spec makes sensitive becomes so on the server exactly if its value or HCL flag changed too |
| `SentValues.BecomingSensitiveEmpties` | workspacehelper/tfc_variable.go:94-108 | and if the spec leaves its value to a file, it is emptied and the file is not read |
| `VariableSync.MapToTFCVariable` | workspacehelper/tfc_variable.go:30-42 | a fresh object for each variable of the spec, the same field by field, its value without one newline at the end |
| `VariableSync.GetNonSensitiveVariablesToUpdate` | workspacehelper/tfc_variable.go:94-108 | the chosen spec objects, pointed at the remote ids in place, carry the plan's updates |
| `VariableSync.GetSensitiveVariablesToUpdate` | workspacehelper/tfc_variable.go:110-128 | the same for all listed sensitive ones, marked sensitive in place; the other objects stay as they are |
| `VariableSync.GenerateUpdateVariableList` | workspacehelper/tfc_variable.go:130-146 | both lists together carry the plan's updates, although the second pass works on the objects of the first |
| `VariableSync.CheckAndRetrieveIfSensitive` | workspacehelper/tfc_variable.go:228-243 | a sensitive variable without a value gets the content of the file of its name, or fails; any other is left as it is (`SentValues.RetrieveIsExact`) |
| `VariableSync.VariableClient.DeleteVariablesFromTFC` | workspacehelper/tfc_variable.go:52-63 | deletes what the spec lacks, and stops at the first failure |
| `VariableSync.VariableClient.CreateVariablesOnTFC` | workspacehelper/tfc_variable.go:65-79 | creates what the listing lacks, with values retrieved in place, and stops at the first failure |
| `VariableSync.VariableClient.UpdateTerraformVariables` | workspacehelper/tfc_variable.go:209-226 | sends the updates that the objects carry |
| `VariableSync.VariableClient.CheckVariables` | workspacehelper/tfc_variable.go:148-177 | the calls made are a prefix of the plan from the listing taken before the deletes; on success they are the plan, and the result is what the plan reports |
| `RunTriggers.StaleListingDecidesTheSame` | workspacehelper/tfc_run_trigger.go:40-76 | deciding creates from the listing taken before the deletes gives the same creates as a fresh listing |
| `RunTriggers.PlanConverges` | workspacehelper/tfc_run_trigger.go:57-76 | afterwards the remote source names are those of the spec |
| `RunTriggers.NoCallsWhenMirrored` | workspacehelper/tfc_run_trigger.go:57-76 | a sync makes no call if and only if they already were |
| `RunTriggers.TriggerClient.CheckRunTriggers` | workspacehelper/tfc_run_trigger.go:57-76 | the calls made are those of the plan; a refused create is passed over |
| `RunTriggers.TriggerClient.DeleteRunTriggersFromTFC` | workspacehelper/tfc_run_trigger.go:26-38 | deletes what the spec lacks, and stops at the first failure |
| `RunTriggers.TriggerClient.CreateRunTriggersOnTFC` | workspacehelper/tfc_run_trigger.go:40-55 | creates what the listing lacks, and reports whether there was any |
| `Notifications.NameOnlyTestIsFull` | workspacehelper/tfc_org.go:395-428 | after the deletes, with distinct names in the spec, a name is there exactly if its full entry is |
| `Notifications.ConvergesExactlyIfNoneHidden` | workspacehelper/tfc_org.go:348-428 | after a complete sync every remote entry fully matches the spec and every entry has a match, if and only if none is hidden behind another of its name |
| `Notifications.DistinctNamesHideNone` | workspacehelper/tfc_org.go:395-428 | distinct names hide none |
| `Notifications.NoCallsWhenMirrored` | workspacehelper/tfc_org.go:348-428 | a sync of a mirrored collection makes no call |
| `Notifications.CompareNotifications` | workspacehelper/tfc_org.go:319-346 | the comparison succeeds exactly on agreement of every field, users included, which is equality with what would be created |
| `Notifications.MadeSaysTheSame` | workspacehelper/tfc_org.go:406-420 | what is created for an entry of the spec says the same in every field, and only that is a full match |
| `Notifications.NotificationClient.CheckNotifications` | workspacehelper/tfc_org.go:348-428 | the calls made are a prefix of the deletes, or of the whole plan with a second listing taken between; on success they are the plan |
| `Finalizers.Contains` | workspacehelper/helper.go:6-13 | the search finds exactly the members |
| `Finalizers.Remove` | workspacehelper/helper.go:15-22 | shifting inside the shared array while ranging over the old length: when it goes out of range, and what it leaves |
| `Finalizers.LeavesOthersExactlyIfNotAdjacent` | workspacehelper/helper.go:15-22 | what it leaves is the list without the string if and only if that nowhere stands twice in a row |
| `Finalizers.RemovesSingle` | workspacehelper/helper.go:15-22 | a string that occurs at most once is removed in bounds, and nothing else |
| `Template.RenderIsInjective` | workspacehelper/terraform.go:21-60 | for fields without line breaks, two specs of the same object render alike if and only if they agree on organization, variable keys in order, outputs in order, module source and version (which keys these are, `TemplateText` says) |
| `Template.LineBreaksHideDifferences` | workspacehelper/terraform.go:21-60 | a field with line breaks makes one output render like two |
| `TemplateShapes.SameShapeHidesNothing` | workspacehelper/terraform.go:21-60 | with fields of the same lengths two specs render alike if and only if they agree, whatever line breaks they have |
| `TemplateShapes.OneFieldAlwaysShows` | workspacehelper/terraform.go:21-60 | two specs that differ in one field at most render alike if and only if they agree, whatever line breaks the field has |
| `TemplateText.TextIsOf` | workspacehelper/terraform.go:21-60 | line by line, and no line more: the backend with organization and name, one declaration and one argument in order for each variable that is not an environment variable, three lines for each output, module source and version |
| `TemplateText.AddingShows` | workspacehelper/terraform.go:34-55 | one more variable, wherever it is added, changes the text if and only if it is not an environment variable |
| `TemplateText.ReplacingShows` | workspacehelper/terraform.go:34-55 | another variable in the place of one changes the text if and only if the kind differs, or the key of one that is not an environment variable; line breaks or not |
| `Template.RewrittenExactlyIfProjectionChanged` | workspacehelper/k8s_configmap.go:44-74 | an existing ConfigMap is rewritten exactly when that projection of the spec changed |
| `Template.ConfigMapClient.UpsertTerraformConfig` | workspacehelper/k8s_configmap.go:44-74 | on success the ConfigMap holds the text and the result says whether it was new or different; a failed write changes nothing or writes just that text |
| `Json.ParseValue` | workspacehelper/tfc_output.go:36-50 | a parsed JSON tree weighs no more than the characters it was read from |
| `Rendering.FromJson` | workspacehelper/tfc_output.go:36-50 | the value made of a tree weighs no more than it, so rendering ends on strings that hold JSON that holds strings, to any depth; what it is, `Decoding.DecodingKeepsTheTree` says |
| `Rendering.Embedded` | workspacehelper/tfc_output.go:36-50 | what a string holds weighs no more than the string |
| `RoundTrip.PublishedTextReadsBack` | workspacehelper/tfc_output.go:28-128 | the text of a value parses back to its tree if and only if rendering departs from JSON nowhere in it |
| `RoundTrip.ReadsQuoted` | workspacehelper/tfc_output.go:57-126 | a string in Go's quotes reads back in JSON as itself if all its characters have a common quoted form, and not at all otherwise |
| `RoundTrip.UnprintableDoesNotReadBack` | workspacehelper/tfc_output.go:57-126 | a list with an unprintable character beyond the Basic Multilingual Plane in a string does not read back |
| `RoundTrip.ReadsBareString` | workspacehelper/tfc_output.go:115-121 | a bare string attribute never reads back as itself |
| `RoundTrip.NoStringHoldsItself` | workspacehelper/tfc_output.go:115-121 | because no string contains itself between quotes |
| `Decoding.DecodingKeepsTheTree` | workspacehelper/tfc_output.go:36-50 | the value made of a JSON tree has just that tree, with the members of every object in order of name and the last of those with one name |
| `Decoding.NormalIsUnique` | workspacehelper/tfc_output.go:95-104 | and there is only one such tree |
| `Decoding.HeldTreeReadsBack` | workspacehelper/tfc_output.go:36-50 | a string that holds an array or an object is printed as a text that reads back as that tree if and only if nothing in it is printed in Go's way only |
| `Decoding.OthersStay` | workspacehelper/tfc_output.go:36-50 | a string that does not begin with JSON, goes on after it, or holds a number, a word or a string, is printed as it is |
| `Decoding.StrayBracketCuts` | workspacehelper/tfc_output.go:36-48 | but behind a closing bracket too many everything is lost |
| `Decoding.BeforeIsFirstDifference` | workspacehelper/tfc_output.go:95-104 | names are in order of the first characters in which they differ, a prefix first |
| `Decoding.InGosWay` | workspacehelper/tfc_output.go:57-121 | a string attribute of an object is printed bare, and a null string in a list between quotes |
| `Amounts.PlainKeepsTheAmount` | workspacehelper/tfc_output.go:54-56 | a number is printed without exponent and superfluous zeros, with the sign and the amount that its digits and exponent had |
| `Amounts.ReadsAmount` | workspacehelper/tfc_output.go:36-56 | so is every number in a JSON string, however it is written there |
| `Quoting.Forms` | workspacehelper/tfc_output.go:57-92 | the quoted form of every character: its letter, itself, or its number in two, four or eight digits |
| `Quoting.ListsOfStringsAreKeptApart` | workspacehelper/tfc_output.go:57-75 | two lists of strings that hold no JSON are printed alike if and only if they are the same, whatever characters they have |
| `Outputs.GetOutputsFromState` | workspacehelper/tfc_output.go:131-158 | whatever order the loop goes in, the list has an output exactly if it is not sensitive and has a text, once, with that text |
| `Outputs.PublishedListIsCanonical` | workspacehelper/tfc_output.go:98-182 | whatever that order, the sorted list stands for exactly what is visible of the state |
| `Outputs.PublishedShowsExactly` | workspacehelper/tfc_output.go:145-157 | a list of distinct keys stands for what is visible of a state if and only if it has exactly the outputs that are not sensitive and have a text, each with its text |
| `Outputs.OrderDoesNotMatter` | workspacehelper/tfc_output.go:161-182 | any two orders publish the same list |
| `Outputs.CanonicalIsUnique` | workspacehelper/tfc_output.go:161-182 | only one sorted list stands for given outputs, so an unchanged state is never taken for a change |
| `Outputs.CheckOutputs` | workspacehelper/tfc_output.go:161-182 | no run, no outputs; otherwise the same list in order of key, or an error if the state cannot be read |
| `Outputs.OutputsToMapLoop` | workspacehelper/k8s_configmap.go:114-120 | the loop fills the map that the list stands for |
| `Outputs.SecretClient.UpsertSecretOutputs` | workspacehelper/k8s_configmap.go:123-155 | on success the Secret holds exactly the outputs, and it is not written if it already did |
| `Workspace.Resolve` | workspacehelper/k8s_configmap.go:77-112 | only the value changes: a plain variable keeps its own and takes a ConfigMap's only if it has none, a sensitive one takes a Secret's if it names one; the lookup fails exactly if that leaves no value |
| `Workspace.ResolvesAllOrNone` | workspacehelper/workspace_helper.go:288-307 | either all variables come with their values, in order, or one has none and the lookup fails |

## Left out

- Operator.WorkspaceHelper.AwaitDestroy: the source polls without end; here the operator is taken to be stopped after a number of polls
  that is a parameter.
- RunTriggers.TriggerClient.CheckRunTriggers: the source drops the error of a create; in the machine every create of a trigger succeeds.
- SettledRuns.NextCallReachesFixpoint: asks for the workspace to be there and for distinct notification names; `Convergence` discharges the first.
- Mirroring.SettledMirrorsTheSpec: variables with the same key twice in the spec, and notifications with the same name, are excluded from what it says of them.
- Outputs.SecretClient.UpsertSecretOutputs: no data and empty data are the same here.  In the source a Secret that comes back without any data
  differs from an empty map, so with no outputs at all it is written again on every call, with the same content.
- Notifications.CompareNotifications: an absent list and an empty one are the same here, as they are in the spec's outputs; in the source they differ.
- A ConfigMap whose data was emptied by hand, on which the source would write into an absent map.
- Operator.WorkspaceHelper.CheckWorkspace: only reads by name, creates, and hands on the id; SSH keys, Terraform versions and agent
  pools are not part of this model.
- A reference that names both a ConfigMap and a Secret.
- The choice of organization and the name prefix: an object stands for one workspace all its life, and is not made again once it is gone.
- The category of a variable, which the source's search does not compare, and descriptions.
- Pagination: every listing is complete.  Stale reads of the cluster's cache: a reading of the object is the newest.
- Runs that others start, and workspaces that others delete; changes of the collections by others while a call is under way (between calls they may come).
- The lookup of ConfigMaps and Secrets for values, and the mounted directory: fixed maps, which may change between calls.
- The sending of the module's files: one step that the server answers by processing the version.
- The state file: in the machine the state is what is visible of it.
- Which characters Go takes for printable: a set that is left open, so that the results hold for every Unicode version.
- Numbers are in plain notation: precision beyond 512 bits, and capsule values, are not part of this model; nor is the normalization of Unicode.
- A name that occurs twice in one JSON object inside a string, with values of different types: here the last one counts, as it does for
  values of one type.
- `sort.Slice` is taken at its word: it sorts.
- Transport, credentials, logging, events and the wiring of the manager.

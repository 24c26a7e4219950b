# Models of the qron engines

qron schedules tasks on hosts and tells people when something goes wrong. Six of its parts decide
things over runs that never end; they are modelled here, and what they promise is proved for every
input, every run or every reachable state.

* **Scheduler** (`sched/scheduler.cpp`). A state machine: an instance is planned, queued, started,
  stopped by its executor, waits for its sheep, finishes, is canceled or aborted; a configuration is
  reloaded. `SchedulerModel` gives each step as a function on a `State`; the class
  `Scheduler.Scheduler` has the fields of the original, its loops and its calls, and each of its methods
  is proved to take exactly the step of the same name. The actions that events trigger may plan more
  instances inside any step: the environment gives, for each time actions are triggered, the list of
  plan requests they make ("script"). A herder is the instance that a herd is named after; its sheep are
  those planned into its herd.
* **Wait conditions** (`condition/taskwaitcondition.cpp`, `condition/disjunctioncondition.cpp`). The
  class `Counters` counts statuses in a loop; `Meaning` says without counters what each operator asks.
* **Gridboard** (`alert/gridboard.cpp`). Trees of alert data, one index per dimension, merged as alerts
  link them. The class keeps a ghost map from points to the data last written.
* **Cron trigger** (`trigger/crontrigger.cpp`). The skipping search over a Gregorian calendar that is
  derived from counting days one by one, the parser of steps and the printer.
* **Alerter** (`alert/alerter.cpp`). Stateful alerts rise, may rise, are raised, drop; one-shot alerts
  are deduplicated; a poll walks through both maps as they were when it began.
* **Dot-glob filters** (`config/configutils.cpp`). A filter is converted to the text of a regular
  expression; the text is lexed and matched by an independent definition.

| file | holds |
|---|---|
| `TaskStatus`, `Totals` | statuses and how they follow each other; sums over finite sets |
| `Conditions` | operators, their conjugates, what reevaluating a planned sheep decides |
| `SchedulerModel` | the state and its steps |
| `SchedulerInvariants`, `SchedulerHerds`, `SchedulerBooks` | what holds between steps: herds and indexes; executors, running counts, resources |
| `SchedulerSteps`, `SchedulerActions`, `SchedulerRuns` | every elementary step, every call that may trigger actions (mutually recursive), every event keeps it |
| `SchedulerTheorems` | the main results over runs |
| `SchedulerQueue`, `SchedulerLines` | deduplication: the bound on duplicates; what steps that trigger no action do to the queue |
| `SchedulerSheep` | what cancel condition a planned sheep gets, and what becomes of it |
| `SchedulerStart` | which queued instance starts, on which host |
| `SchedulerMarks` | no change of a herd that can decide a wait goes unnoticed |
| `SchedulerEnds`, `SchedulerDisabled` | results, aborts, reloads; disabled tasks |
| `SchedulerForce` | forced instances come from forced requests only |
| `SchedulerShelter` | what no action, however nested, can take away from an instance |
| `SchedulerCancel` | which cancellations take effect |
| `SchedulerAnswers`, `SchedulerAlike` | actions that answer alike each time they are triggered within an event; the bound on duplicates over runs of such events |
| `SchedulerDuplicates`, `SchedulerLimit` | runs that go beyond the bound, and the exact conditions |
| `SchedulerAgain`, `SchedulerTwice`, `SchedulerOnce` | which herders are finished again; exactly which, for one request; in exactly which configurations none |
| `SchedulerFindings` | concrete runs where the code does not do what is expected |
| `Scheduler` | the class |
| `GridForest`, `GridBoardModel`, `Gridboard` | trees and chains of points; boards and their invariants; the class |
| `CivilDate`, `CronText`, `CronField`, `CronSearch`, `CronMeaning`, `CronTrigger` | dates; texts; fields and their printing; the search; which moments of the calendar an expression names; the classes |
| `Alert`, `AlerterModel`, `AlerterTheorems`, `AlerterDates`, `Alerter` | alert statuses; the steps; the invariants and what notices say; when alerts are notified; the class |
| `AlerterRequests`, `AlerterEmits`, `AlertBoard` | what each request comes to; when one-shot alerts are notified; what gridboards show of an alert over a run |
| `DotGlob` | everything about filters |

`Reached(s, false)` says that some run reaches the state `s`. `Reached(s, true)` says that a *steady* run
does: one whose reloads take nothing away from tasks that have instances (they keep their resources and
policies, and no limit is lowered). Counts, resources and herd judgements are about steady runs, since a
reload that lowers a limit leaves the running instances as they are; the structure of herds and the
executors are about all runs.

## What the code does not do

Each of these is a theorem about the code as it is, with a concrete input, and with a condition, on what
is given before the call or on the configuration, under which the expected property holds.

* A planned or queued herder that is canceled runs its finish actions before it is marked canceled; if
  they plan a sheep, the herder stays queued and is started later (`CancellationIsLost`). For a herder that
  is planned, or queued and not exposed to deduplication, it takes effect if and only if the policy of its
  task is not to wait or none of the requests of its finish actions is for a sheep of a known and enabled
  task (`CanceledExactly`). All of its conditions look at the state before the call and at the requests;
  where they speak of forced instances, none is known and none asked for, so that there is none afterwards
  (`OnlyForcedRequestsForce`).
* Tasks with the keeplast strategy can have more queued duplicates than they allow: the one that is to go
  for the arriving instance runs its finish actions first, and if they plan a sheep it waits for it and
  stays queued. For each such task whose policy is to wait there is a run without reload or forced
  instance that goes beyond the limit, whenever the limit is below the one on all queued instances
  (`BeyondLimit`). Tasks without keeplast are always within it (`DuplicatesAreBounded`), and so are those
  with keeplast that do not wait, when actions answer alike (`WithinLimitAlike`). Together: a task is
  within its limit in all such runs if and only if it does not keep the last instances, or its limit is no
  lower than the one on all queued instances, or it does not wait (`WithinLimitExactly`). For one arriving
  instance at the limit, the condition is on the instance that goes and on its requests
  (`KeptWithinLimitExactly`).
* To *answer alike* means that within an event the actions which the instances of a task trigger when they
  are planned ask for the same each time, and so do those which they trigger when they are canceled
  without having started; as they do when the task, the flags and the criterion that a plantask action
  gives are constants. Then an instance that goes and asks for a lone one of its own task and criterion
  makes the code call itself without end: the new one finds it still queued and first, and makes it go
  again (`OwnPlanNeverEnds`: no finite sequence of answers is one of such actions). If what an action asks
  for is an expression that comes to something else the second time, this ends, and with one instance too
  many whatever the policy (`BeyondLimitByChange`, `WithinLimitWhateverAnswers`).
* A herder that stops may be finished twice: its finish actions plan another instance, whose
  deduplication cancels the last awaited sheep, which finishes the herder, which then goes on and
  finishes again; the running count of its task becomes -1 and resources are given back twice
  (`HerderIsFinishedTwice`). Only the stop of a herder can do so (`OnlyStopsFinishAgain`), and without
  forced instances only if it awaits sheep that are all queued, of keeplast tasks that the actions ask for
  (`StoppedHerderAgain`, on the state and the requests before the call). When the actions ask for one
  instance, it does so if and only if that one is a lone, unforced one of a known and enabled task and all
  the awaited sheep are among those that it displaces (`StoppedAgainExactly`). Over all runs of a
  configuration without forced instances, nothing is finished twice if and only if no keeplast task has a
  limit that is no higher than the one on all queued instances, or no instance can ever start
  (`NeverTwiceExactly`); with mild reloads, where no task becomes such a one (`NothingIsFinishedTwice`),
  and there counts, resources and maxperhost are exact (`AccountsAreExact`). In general the running count
  is right if and only if no herder of the task was finished again (`RunningCountIsRight`).
* Forced instances are not charged what they need when they start, and give it back when they finish: what
  a host has in use drops by it each time (`ResourcesInUse`).
* With two or more queue conditions and no cancel condition, the cancel condition of a sheep is an empty
  disjunction, which always holds: the sheep is canceled at the first reevaluation
  (`TwoTermsCancelAtOnce`, `NothingGuessed`). `ExclusiveExactly` reads off the two conditions whether they
  can both hold.
* An alert whose visibility window has no match is visible at an invalid date, which is before all others:
  it is notified at the next poll instead of never. `ShownOnNoDay` is a run for the thirtieth of February
  with a rise delay of an hour; `NotifiedAtOnceExactly` says for all settings when an alert that is polled
  as it is raised is notified.
* Gridboards are told of an alert by its raise and cancel requests only. An alert that was rising when a
  cancel was asked for is shown as fine from there on, even when a poll then raises it, because it was to
  be shown by the end of the mayrise delay (`RaisedAndShownAsFine`). In all other respects they follow:
  what is rising is shown as raised, what may rise, drops or is gone as fine (`BoardFollowsRequests`).
* A range of days of the week whose bounds are in the wrong order once each is reduced modulo seven sets
  nothing: so does one that ends with a seven, unless it starts with a multiple of seven
  (`WeekdayRangeIsNullExactly`). A trigger with such a field alone is invalid.
* A filter with a bar becomes a regular expression with two alternatives, each anchored at one end only
  (`BarMatchesTooMuch`, `ConversionIsRightExactly`).

The last branch of a poll for an alert that may rise (`alert/alerter.cpp:353-355`) cannot be taken: when
the cancellation date is reached and does not precede the visibility date, the visibility date is reached
too, which is the branch before.

## Model

| member | source | states |
|---|---|---|
| SchedulerTheorems.LiveMapIsClean | sched/scheduler.cpp:1124-1141 | in every reachable state, whatever the reloads, an instance is in the live map exactly when it is unfinished or a sheep of a live herder; the herd indexes have entries for live herders only |
| SchedulerTheorems.NoLostWakeUp | sched/scheduler.cpp:990-1028 | in every reachable state a live herder awaits exactly the unfinished sheep of its herd, and a waiting herder awaits at least one |
| SchedulerTheorems.HerderEndsAsItsPolicySays | sched/scheduler.cpp:1031-1088 | a finished herder whose policy is to wait has only finished sheep among all those ever planned into its herd while it lived; it succeeded exactly when its policy, spelled out on all their statuses and on its own, says so; it is canceled only with all of them |
| SchedulerTheorems.RunningCountIsRight | sched/scheduler.cpp:857-904 | the running count of a task is the number of its running and waiting instances, forced ones included, less those finished again; it is exact if and only if no herder of the task was finished again; without forced instances it is at most maxinstances |
| SchedulerTheorems.ResourcesInUse | sched/scheduler.cpp:906-940 | in steady runs, forced instances included, what a host has in use of each resource is the sum over the running and waiting instances that target it, less what was given back again, less what all forced instances ever started there need; without forced instances it is at most what the host has |
| SchedulerTheorems.HostsAreNotOverloaded | sched/scheduler.cpp:906-940 | in steady runs where nothing is forced or was finished again, the active instances of a task on a host need together no more of any resource than the host has |
| SchedulerTheorems.MaxPerHost | config/tasktemplate.cpp:149-150 | where nothing was finished again, a task that needs one of a resource has at most as many instances active on a host as the host has of it |
| SchedulerStart.StartsOnTheFirstHost | sched/scheduler.cpp:836-979 | a queued instance starts exactly if its task is known and enabled, has a slot and an executor or is forced, and some host suits; then on the first suitable one in the order of its cluster; with no host at all a sheep fails; otherwise nothing changes |
| SchedulerStart.LowestGetsTheExecutor | sched/scheduler.cpp:813-821 | when one executor is idle, it goes to the queued instance with the lowest id among those that can start, on its first suitable host, and all others stay as they are |
| SchedulerEnds.StopsAsReported | sched/scheduler.cpp:945-1029 | what the executor reports when an instance stops is kept for ever; a sheep has succeeded or failed accordingly, whatever its actions bring about |
| SchedulerEnds.HerderThatDoesNotWait | sched/scheduler.cpp:1031-1088 | in steady runs a finished herder whose policy is not to wait succeeded exactly if its executor said so |
| SchedulerEnds.LastSheepKeepsItsHerder | sched/scheduler.cpp:990-1005 | when the last awaited sheep stops and its actions first ask for another one, the herder goes on |
| SchedulerEnds.AbortLeavesNobodyWaiting | sched/scheduler.cpp:559-585 | after a running or waiting herder is aborted, none of its sheep is planned or queued |
| SchedulerEnds.ReloadLeavesNoOrphans | sched/scheduler.cpp:155-180 | after a reload nothing planned or queued is left without a task; a task is enabled exactly if it is new or was enabled |
| SchedulerDisabled.DisabledIsCanceled | sched/scheduler.cpp:370-376 | an unforced sheep of a disabled task is canceled when it is to be queued |
| SchedulerDisabled.NothingStartsWhileDisabled | sched/scheduler.cpp:836-842 | over any run after a task is disabled, reloads that keep it included, none of its instances starts, forced or not, until it is enabled again |
| SchedulerDisabled.EnabledAgainItStarts | sched/scheduler.cpp:836-979 | once it is enabled again, a queued instance with a slot and an executor, or forced, starts on the first host that suits |
| SchedulerTheorems.QueueIsBounded | sched/scheduler.cpp:421-431 | never more queued instances than maxqueuedrequests, forced ones included |
| SchedulerTheorems.ExecutorsAreExclusive | sched/scheduler.cpp:945-989 | whatever the reloads, no executor is idle and at work or at work twice, and the running map holds exactly the running instances |
| SchedulerTheorems.CrewIsKept | sched/scheduler.cpp:78-114 | over any run, permanent executors are maxtotaltaskinstances plus those that reloads could not remove because too few were idle, hence never fewer |
| SchedulerTheorems.HerdHistory | sched/scheduler.cpp:793-809 | as long as a herder lives, the statuses that its herd shows, for any known ids, to conditions in the successive states of a run only advance and none is lost or comes in |
| SchedulerTheorems.VerdictDoesNotDependOnTheSchedule | sched/scheduler.cpp:779-811 | over any stretch of any run, a sheep with one wait condition on known instances, be it the default one on its herder, and a guessed cancel condition meets the same verdict, to be queued or to be canceled, whichever moments it is reevaluated at |
| SchedulerTheorems.ReevaluatedAlike | sched/scheduler.cpp:793-809 | between any two moments, within events too, a waiting sheep that a reevaluation would queue at the first is queued, not canceled, by one at the second, and conversely |
| SchedulerSheep.PlannedSheepIsDecided | sched/scheduler.cpp:276-360 | a sheep that is planned without a cancel condition, in an event or within actions, into a live herd is decided by its wait at all later moments at which it still waits: queued exactly if the wait holds, canceled exactly if it holds for no way in which the awaited sheep may still end, and decided once they are all finished |
| SchedulerSheep.SheepOfRunIsDecided | sched/scheduler.cpp:301-360 | the same over runs, for a request and whatever happens then; without a queue condition it waits for its parent to start |
| SchedulerSheep.GivenConditionsAreKept | sched/scheduler.cpp:276-360 | a sheep that is planned with a cancel condition is at all later moments queued if its wait holds, canceled if it does not and that condition holds, and left as it is otherwise |
| SchedulerSheep.HopelessSheepIsCanceled | sched/scheduler.cpp:779-811 | a reevaluation ends with a sheep of a marked herd canceled if its wait could no longer hold, whatever the sheep before it in the walk brought about |
| SchedulerMarks.NothingGoesUnnoticed | sched/scheduler.cpp:779-811 | whatever happens in an event, with all that its actions bring about, a live herder that has a new sheep or a newly finished one, or that begins to wait, is marked for reevaluation after it; only a reevaluation takes marks, and it marks again those for which it makes something happen |
| SchedulerMarks.FinishedWaitIsMarked | sched/scheduler.cpp:990-1005 | when the last of some sheep of a live herder finishes in an event, the herd is marked, so that those that wait for them are reevaluated |
| SchedulerTheorems.RunKeeps | sched/scheduler.cpp:750-765 | any possible sequence of events keeps all the invariants |
| SchedulerRuns.ApplyKeeps | sched/scheduler.cpp:750-765 | any event keeps all the invariants, and everything it leaves of an instance is as the status diagram allows; a reload may be arbitrary unless the run is to stay steady |
| SchedulerActions.PlanKeeps | sched/scheduler.cpp:301-360 | planning, with whatever its actions plan in turn, keeps all the invariants and leaves later states of the same instances |
| SchedulerActions.EnqueueKeeps | sched/scheduler.cpp:362-447 | so does queueing a planned instance, with the cancellations it makes |
| SchedulerActions.CancelKeeps | sched/scheduler.cpp:461-508 | so does canceling an instance and its sheep |
| SchedulerActions.StopHerderKeeps | sched/scheduler.cpp:1006-1029 | so does the end of a herder, which waits, or finishes, or was finished by its own actions |
| SchedulerActions.TriggerKeeps | sched/scheduler.cpp:1322-1357 | so does running the plan-task actions of an event |
| SchedulerQueue.DuplicatesAreBounded | sched/scheduler.cpp:377-420 | in steady runs without forced instances, no more instances of one task and deduplicate criterion are queued than the task allows, if the task is never keeplast; if it is, where no canceled instance had requests for known and enabled tasks |
| SchedulerQueue.SurplusOrder | sched/scheduler.cpp:383-414 | instances are dropped only beyond the limit and exactly as many as needed; keeplast keeps the arriving one and drops lowest ids, lowest first; any other strategy drops the arriving one first, then highest ids, highest first |
| SchedulerQueue.SurplusLeaves | sched/scheduler.cpp:393-419 | what is left makes room for the arriving instance, or it was dropped and the others are within the limit |
| SchedulerQueue.EnqueueDeduped | sched/scheduler.cpp:362-447 | queueing keeps the bound on duplicates, nested cancellations and plans included: for keeplast tasks unless a canceled instance had requests to plan, for others always |
| SchedulerQueue.RefusedOrRoom | sched/scheduler.cpp:393-419 | without keeplast an arriving instance that is not itself dropped displaces nobody, and finds room |
| SchedulerDuplicates.KeptWithinLimitExactly | sched/scheduler.cpp:393-419 | with keeplast, when an instance arrives at the limit and no action asks for the task, the limit still holds after it is queued if and only if the lowest one is a sheep, or its policy is not to wait, or its finish actions ask for no sheep |
| SchedulerLimit.BeyondLimit | sched/scheduler.cpp:393-419 | for any configuration and any keeplast task that waits for sheep and whose limit is below maxqueuedrequests, a run in which more are queued than the limit, though actions answer alike over the whole run: instances that are canceled ask for a sheep |
| SchedulerLimit.WithinLimitExactly | sched/scheduler.cpp:377-420 | when actions answer alike, a task that limits its queued instances is within its limit in all runs without reloads and forced instances if and only if it is not keeplast, or its limit is no lower than maxqueuedrequests, or its policy is not to wait |
| SchedulerLimit.OwnPlanNeverEnds | sched/scheduler.cpp:393-414 | when a herder arrives in a full queue, with a herder first if it is keeplast, nothing is forced, and canceled instances of its task ask for a lone one like it, the cancellations and plans never end: no finite sequence of answers is consistent with such actions |
| SchedulerDuplicates.BeyondLimitByChange | action/plantaskaction.cpp:38-59 | with actions that ask for another instance of their task once and for nothing the second time within the event, as an expression may, a run beyond the limit for any keeplast task below maxqueuedrequests, whatever its policy |
| SchedulerDuplicates.WithinLimitWhateverAnswers | sched/scheduler.cpp:377-420 | whatever actions answer, a limited task is within its limit in all runs without reloads and forced instances if and only if it is not keeplast or its limit is no lower than maxqueuedrequests |
| SchedulerAlike.WithinLimitAlike | sched/scheduler.cpp:377-447 | over any run without reloads and forced instances whose actions answer alike within each event, a keeplast task that does not wait for sheep never has more queued duplicates than it allows, whatever canceled instances ask for |
| SchedulerAnswers.EnqueueHolds | sched/scheduler.cpp:362-447 | when actions answer alike, an arrival that the actions run for other arrivals have led to leaves the queues that these make room in as they are and tasks that do not wait within their limits, with all the cancellations and plans it causes, and is not itself in one of those queues |
| SchedulerAnswers.CancelHolds | sched/scheduler.cpp:485-508 | when actions answer alike, canceling a herder that has not started, in a full queue, takes it from its queue, or leaves it there if its policy is to wait, leaves all other queues in which arrivals that led to it make room as they are, and nothing its actions ask for leads back to one of them |
| SchedulerForce.OnlyForcedRequestsForce | sched/scheduler.cpp:301-360 | no event brings in a forced instance unless a forced one is asked for by it or by its actions |
| SchedulerQueue.CancelHerdEmpties | sched/scheduler.cpp:461-483 | canceling the sheep of a herder that has not started leaves it nothing to wait for and queues nothing |
| SchedulerQueue.CancelAllQuietly | sched/scheduler.cpp:395-414 | cancellations that plan nothing queue nothing, and none of the canceled instances is still queued |
| SchedulerShelter.TriggerSpares | sched/scheduler.cpp:1322-1357 | whatever actions plan and cancel in turn, an instance that runs, or is planned, or is queued and cannot be displaced, keeps its status and its place |
| SchedulerAgain.FinishedAgainOnlyIf | sched/scheduler.cpp:1006-1023 | a herder that stops is finished again only if it awaits sheep that are all queued, of limited tasks that its actions ask for, whose limits can be reached, and that do not refuse arriving instances |
| SchedulerAgain.StoppedHerderAgain | sched/scheduler.cpp:981-1029 | told from the state before the stop, in which tasks without keeplast are within their limits and nothing is forced, and from the requests, none of them forced: a herder is finished again only if all awaited sheep are queued and of keeplast tasks that the requests name and whose limits can be reached |
| SchedulerTwice.FinishedAgainExactly | sched/scheduler.cpp:1006-1023 | when the actions of a herder that stops ask for one instance, the herder is finished again if and only if that one is lone, unforced, of a known and enabled task that limits its queued instances, and all the sheep the herder waits for are among those that go for it |
| SchedulerTwice.StoppedAgainExactly | sched/scheduler.cpp:945-1029 | the same for the event: whether the herder is finished again is read off the state before its executor stops and off the request |
| SchedulerOnce.FinishedTwice | sched/scheduler.cpp:1006-1023 | for any configuration in which some instance can start and some keeplast task has a limit no higher than maxqueuedrequests, a run without reloads and forced instances in which a herder is finished twice |
| SchedulerOnce.NeverTwiceExactly | sched/scheduler.cpp:981-1029 | nothing is finished twice in any run of a configuration without reloads and forced instances if and only if no keeplast task has a limit no higher than maxqueuedrequests, or no task has a slot, an executor and a host that carries it |
| SchedulerAgain.OnlyStopsFinishAgain | sched/scheduler.cpp:750-765 | no event but the stop of a herder finishes anything again |
| SchedulerAgain.NothingIsFinishedTwice | sched/scheduler.cpp:981-1029 | over any steady run without forced instances where no keeplast task has a limit that can be reached, nothing is finished again |
| SchedulerAgain.AccountsAreExact | sched/scheduler.cpp:857-940 | in such runs running counts and resources in use are exact and within maxinstances and what hosts have, and maxperhost holds |
| SchedulerCancel.CancelFinishesExactly | sched/scheduler.cpp:1006-1023 | at any moment, within actions too, canceling a herder yet to start that cannot be displaced finishes it if and only if its policy is not to wait or its finish actions ask for no sheep; otherwise it keeps its status |
| SchedulerCancel.CanceledExactly | sched/scheduler.cpp:485-508 | in any reached state the same for a request to cancel: every condition is on the state before and on the requests of the actions |
| SchedulerFindings.CancellationIsLost | sched/scheduler.cpp:485-496 | a run of two events after which a canceled instance is still queued |
| SchedulerFindings.HerderIsFinishedTwice | sched/scheduler.cpp:999-1022 | a run of five events after which the running count of a task is -1 |
| Scheduler.Scheduler.constructor | sched/scheduler.cpp:43-67 | a new scheduler with a first configuration is in the initial state, with the executors that loading it makes |
| Scheduler.Scheduler.DoPlanTask | sched/scheduler.cpp:301-360 | takes the step Plan: conditions dropped out of herds, defaults and guesses in herds, indexes, actions, then queueing or a dirty herd; SheepOfRunIsDecided and GivenConditionsAreKept say what those conditions do |
| Scheduler.Scheduler.AppendToHerd | sched/scheduler.cpp:253-256 | adds the instance to the awaited set, to the herd and to the herder's own list |
| Scheduler.Scheduler.CollectDuplicates | sched/scheduler.cpp:383-393 | the loop over the live map collects the queued instances with the same task and criterion in order of id, then the arriving one |
| Scheduler.Scheduler.EnqueueTaskInstance | sched/scheduler.cpp:362-447 | takes the step Enqueue: forced, disabled, deduplicated, refused or queued |
| Scheduler.Scheduler.CancelSurplus | sched/scheduler.cpp:394-414 | the loop that takes duplicates from one end cancels the surplus in order and tells whether the arriving instance went |
| Scheduler.Scheduler.DoCancelTaskInstance | sched/scheduler.cpp:485-508 | takes the step Cancel: only planned and queued instances, the sheep first |
| Scheduler.Scheduler.CancelOrAbortHerdedTasks | sched/scheduler.cpp:461-483 | the loop over the sheep cancels those that are planned or queued by then; nothing else changes |
| Scheduler.Scheduler.HerdedTasks | sched/scheduler.cpp:767-777 | the loop over a herd yields its instances that are still in the live map |
| Scheduler.Scheduler.EnqueueAsManyTaskInstancesAsPossible | sched/scheduler.cpp:779-811 | the loop over a copy of the live map reevaluates the planned instances of dirty herds whose herder has started |
| Scheduler.Scheduler.StartAsManyTaskInstancesAsPossible | sched/scheduler.cpp:813-821 | the loop over a copy of the live map starts the instances that are still queued |
| Scheduler.Scheduler.StartTaskInstance | sched/scheduler.cpp:836-979 | takes the step Start: disabled, no executor, no slot, no host, no resources, or launched; StartsOnTheFirstHost says which |
| Scheduler.Scheduler.TryHost | sched/scheduler.cpp:907-938 | a host is taken exactly when each resource is enough, or the instance is forced; what would be consumed is computed aside, so that a failed search leaves no trace |
| Scheduler.Scheduler.Launch | sched/scheduler.cpp:938-963 | the instance gets its target and start date, the count, the resources and an executor: the first idle one or a temporary one |
| Scheduler.Scheduler.RecomputeHerderSuccess | sched/scheduler.cpp:1031-1068 | the loops over the sheep compute the policy's judgement |
| Scheduler.Scheduler.CreditResources | sched/scheduler.cpp:1091-1100 | the loop over the needed resources gives back each once |
| Scheduler.Scheduler.Close | sched/scheduler.cpp:1070-1106 | an instance that never started is canceled, or failed when so marked; one that started is judged and gives back its slot and resources |
| Scheduler.Scheduler.Forget | sched/scheduler.cpp:1124-1141 | a herder leaves with its entries and its finished sheep; a sheep leaves if its herder is gone |
| Scheduler.Scheduler.Release | sched/scheduler.cpp:993-1003 | a finished sheep is no longer awaited; the last one finishes a waiting herder |
| Scheduler.Scheduler.StopHerder | sched/scheduler.cpp:1006-1029 | takes the step StopHerder |
| Scheduler.Scheduler.StopSheep | sched/scheduler.cpp:990-1005 | takes the step StopSheep: the actions of the sheep run before it is no longer awaited |
| Scheduler.Scheduler.TaskInstanceStopped | sched/scheduler.cpp:981-1029 | the executor is idle again, or gone if temporary, and the instance ends as a herder or as a sheep |
| Scheduler.Scheduler.DoAbortTaskInstance | sched/scheduler.cpp:559-585 | the planned and queued sheep of a running or waiting instance are canceled |
| Scheduler.Scheduler.ResizePool | sched/scheduler.cpp:78-118 | executors are added, or removed among the idle ones only |
| Scheduler.Scheduler.ActivateConfig | sched/scheduler.cpp:75-194 | takes the step of a reload on the executors, the tasks, their running counts and enabling, and cancels planned and queued instances of removed tasks |
| Scheduler.Scheduler.Handle | sched/scheduler.cpp:750-765 | each event takes the step that the theorems over runs are about |
| Conditions.Counters.constructor | condition/taskwaitcondition.cpp:97-125 | the loop leaves the five counters equal to the numbers of awaited instances in each class of statuses |
| Conditions.Counters.EvaluateDecidesMeaning | condition/taskwaitcondition.cpp:127-178 | the arithmetic of each of the 23 operators, and of the unknown one, decides what it says of all or some awaited instances |
| Conditions.Evaluate | condition/disjunctioncondition.cpp:32-41 | the scan of a disjunction, empty or not, and the counters of a wait decide whether a condition holds |
| Conditions.NeverBoth | condition/taskwaitcondition.cpp:44-69 | an operator and its conjugate never both hold |
| Conditions.ExactlyOneOnceFinished | condition/taskwaitcondition.cpp:44-69 | one of them holds once all awaited instances are finished |
| Conditions.ConjugateExactly | condition/taskwaitcondition.cpp:44-69 | the conjugate of an operator holds exactly when the operator holds for no way in which the awaited instances may still end |
| Conditions.OnceTrueStaysTrue | condition/taskwaitcondition.cpp:127-178 | an operator that holds still does when statuses advance |
| Conditions.VerdictDoesNotDependOnPolls | sched/scheduler.cpp:793-809 | on any history of statuses, two choices of moments to reevaluate that reach a verdict reach the same |
| Conditions.DecisionLasts | sched/scheduler.cpp:793-809 | a verdict that could be reached at some moment is the verdict at any later one |
| Conditions.FinishedHerdIsDecided | sched/scheduler.cpp:276-299 | reevaluated once the awaited instances are finished, a sheep with a guessed condition always meets a verdict |
| Conditions.NothingGuessed | sched/scheduler.cpp:280-284 | for a queue condition of several terms the empty cancel condition is kept, and decides at once if it is a disjunction |
| Conditions.TwoTermsCancelAtOnce | condition/disjunctioncondition.cpp:34-35 | a sheep that has two queue conditions and awaits a running instance is canceled |
| Conditions.ExclusiveExactly | sched/scheduler.cpp:276-299 | queue and cancel conditions exclude each other in every herd if and only if the queue condition is a single wait, or the empty cancel condition is null, or every wait of the queue condition has a false or unknown operator or asks for some instance among none |
| Conditions.CanHoldExactly | condition/disjunctioncondition.cpp:32-41 | whether some herd satisfies a condition is read off its operators and ids |
| GridForest.MergeAt | alert/gridboard.cpp:65-74 | after a merge a path has what the source had there, else what the target had |
| GridForest.GrowAt | alert/gridboard.cpp:350-360 | creating an item adds exactly that path, blank |
| GridForest.WriteAt | alert/gridboard.cpp:361-362 | writing an item changes exactly that path |
| GridBoardModel.SameTreeIsLinked | alert/gridboard.cpp:309-363 | two recorded points are in the same tree if and only if a chain of recorded points that share dimension values links them |
| GridBoardModel.IndexIsExact | alert/gridboard.cpp:139-145 | the index of a dimension maps a value to a tree if and only if that tree holds a point with it |
| GridBoardModel.TreesShareNoValue | alert/gridboard.cpp:331-338 | points of different trees differ in every dimension |
| GridBoardModel.ForestIsFlat | alert/gridboard.cpp:348-362 | a point was recorded exactly when some tree holds it, one only, with the cell last written |
| GridBoardModel.GatherRoots | alert/gridboard.cpp:316-331 | the roots found in the indexes are exactly those of the trees that hold a value of the new point |
| GridBoardModel.GatherNext | alert/gridboard.cpp:332-338 | merging a root into the next keeps what the loop needs, with one component less |
| GridBoardModel.WalkFromNewRoot | alert/gridboard.cpp:341-347 | a new root starts the walk when no tree holds a value of the point |
| GridBoardModel.WalkNext | alert/gridboard.cpp:349-360 | creating a missing item keeps what the walk needs, and records a new point exactly at the last dimension |
| GridBoardModel.WalkEnd | alert/gridboard.cpp:361-362 | writing the cell leaves a settled board that denotes the flat map with one entry set |
| Gridboard.Gridboard.constructor | alert/gridboard.cpp:198-252 | a new board over any number of dimensions is valid and empty |
| Gridboard.Gridboard.ComponentRoots | alert/gridboard.cpp:315-330 | the loop over dimensions yields the values, "(none)" for empty ones, and exactly the indexed roots |
| Gridboard.Gridboard.MergeInto | alert/gridboard.cpp:65-74 | the recursive loop over children computes the merge of trees |
| Gridboard.Gridboard.MergeComponents | alert/gridboard.cpp:133-152 | the tree, the indexes and the list of components change as the merge of boards says, and nothing else |
| Gridboard.Gridboard.Update | alert/gridboard.cpp:309-363 | a valid board stays valid, its counters being the numbers of trees and points, and it denotes the flat map with the alert's point set; with no dimension nothing changes |
| Gridboard.SamePointExactly | alert/gridboard.cpp:309-330 | two lists of dimension values are one point exactly if they are equal once empty values read "(none)" |
| AlertBoard.RaiseShows | alert/gridboard.cpp:46-62 | after a raise request inside the acceptability window, whatever the alert was, its cell shows raised at the time of the request |
| AlertBoard.CancelShows | alert/gridboard.cpp:46-62 | after a cancel request, whatever the alert was, its cell shows fine at the time of the request |
| AlertBoard.ShownIsTheLastRequest | alert/alerter.cpp:176-284 | over any run, the cell says what the last accepted request said, with its time |
| AlertBoard.BoardFollowsRequests | alert/alerter.cpp:176-284 | over any run, an alert that is rising is shown as raised, one that may rise or is dropping as fine, one that is gone as fine or never shown |
| AlertBoard.RaisedAndShownAsFine | alert/alerter.cpp:332-374 | a rising alert for which a cancel is asked, and which is then left to polls, is shown as fine; it ends up raised meanwhile if and only if a poll comes once the mayrise delay is over and it was to be visible by then |
| Gridboard.Gridboard.Clear | alert/gridboard.cpp:365-372 | a valid board becomes a valid empty one |
| CivilDate.DayNumberOfDate | trigger/crontrigger.cpp:203-217 | the date reached by counting days one by one from the epoch has the number that adding up years and months gives |
| CivilDate.DateOfDayNumber | trigger/crontrigger.cpp:207-211 | a valid Gregorian date is the one reached after as many days as its number says |
| CivilDate.FirstOfNextMonth | trigger/crontrigger.cpp:206-211 | the first of the next month comes after all the days of this one and no other day between |
| CivilDate.WeekdayOfDay | trigger/crontrigger.cpp:213 | the day of the week of any day, counted on from the epoch, is the one Zeller's congruence gives for its date |
| CivilDate.WeekdayOfDate | trigger/crontrigger.cpp:213 | the same, for any valid date |
| CronText.NumberHasValue | trigger/crontrigger.cpp:80-83 | a printed number reads as that number |
| CronText.SplitJoined | trigger/crontrigger.cpp:263-264 | texts joined by commas are split back |
| CronText.StepOfRange | trigger/crontrigger.cpp:24-29 | a range is read as its two bounds |
| CronField.RunsCover | trigger/crontrigger.cpp:76-99 | the runs that are printed hold exactly the values that are set |
| CronField.ParsePrinted | trigger/crontrigger.cpp:71-102 | parsing the text of a field that is not empty rebuilds exactly the same set |
| CronField.PrintIsInjective | trigger/crontrigger.cpp:71-102 | two fields with the same bounds print alike if and only if their sets are equal |
| CronSearch.CanonicalIsNormal | config/task.cpp:114-122 | two triggers have the same canonical expression if and only if all their fields are equal: the key that carries triggering dates over a reload identifies triggers |
| CronField.SetStepsIsNullExactly | trigger/crontrigger.cpp:321-323 | a field is empty, which makes the trigger invalid, if and only if none of its steps sets anything: each has a bound out of range or ends before it starts |
| CronField.WeekdayRangeIsNullExactly | trigger/crontrigger.cpp:307-316 | the text of a range of days of the week sets nothing if and only if its bounds are in the wrong order once reduced modulo seven |
| CronMeaning.WrittenMeans | trigger/crontrigger.cpp:263-319 | what a field holds that is written as a number, a range or a star, with or without a modulo: its values from the first number, or the lower bound, to the last, or to the first if it stands alone, or to the upper bound, every so many; none if a bound is out of range; days of the week modulo seven |
| CronMeaning.StepsName | trigger/crontrigger.cpp:263-319 | a field holds exactly the values that one of its steps names |
| CronMeaning.MatchesMeans | trigger/crontrigger.cpp:232-246 | six texts match a date and time exactly if each names its part of it, the day of the week being that of the calendar, and the date is included |
| CronMeaning.MatchesExactly | trigger/crontrigger.cpp:232-246 | a second matches exactly if it is that of a date and time whose parts the fields hold |
| CronSearch.CanonicalIsParsedBack | trigger/crontrigger.cpp:128-135 | a canonical expression, cut at its spaces and parsed, gives the fields it was printed from |
| CronSearch.SkipMonth | trigger/crontrigger.cpp:206-211 | skipping to the next month moves forward and passes no matching second |
| CronSearch.SkipDay | trigger/crontrigger.cpp:212-217 | so does skipping to the next day, for the day, the day of week or the calendar |
| CronSearch.SkipHour | trigger/crontrigger.cpp:218-219 | so does skipping to the next hour of the epoch |
| CronSearch.SkipMinute | trigger/crontrigger.cpp:220-221 | so does skipping to the next minute |
| CronSearch.FirstMatchIsEarliest | trigger/crontrigger.cpp:232-246 | looking at seconds one by one finds the earliest match after the last triggering up to the maximum, or none if there is none |
| CronSearch.SearchIsFirstMatch | trigger/crontrigger.cpp:205-229 | whatever finds the earliest match, or that there is none, finds what looking at seconds one by one finds |
| CronSearch.EarliestOrNone | trigger/crontrigger.cpp:205-229 | there is no match up to a maximum if and only if the earliest one is beyond it |
| CronTrigger.FieldArray.SetRange | trigger/crontrigger.cpp:58-70 | the loop sets exactly the values of the range that are a whole number of steps from its start; bounds out of the field set nothing |
| CronTrigger.FieldArray.ToString | trigger/crontrigger.cpp:71-102 | the loops print the field |
| CronTrigger.FieldArray.Parse | trigger/crontrigger.cpp:263-319 | the loop over steps sets what they say, or refuses the text |
| CronTrigger.Trigger.constructor | trigger/crontrigger.cpp:122-127 | a trigger has the fields its six texts say, and is valid if and only if all are recognized and none is empty |
| CronTrigger.Trigger.Search | trigger/crontrigger.cpp:203-229 | the skipping loop ends, with the earliest matching second after the last triggering and up to the maximum, or with none when there is none, for any calendar |
| CronTrigger.Trigger.Next | trigger/crontrigger.cpp:196-230 | the cached date, or the earliest match since the last triggering or since now, which is what looking at seconds one by one finds; it is the second of a date and time whose month, day, day of the week by Zeller's congruence, hour, minute and second the fields hold, on an included date |
| CronTrigger.Trigger.SetLastTriggered | trigger/crontrigger.cpp:187-194 | the date is kept and the cache dropped, so that a cached date is always the earliest match |
| CronTrigger.Trigger.CanonicalExpression | trigger/crontrigger.cpp:128-135 | the canonical expression of the fields |
| AlerterTheorems.NoticesAlternate | alert/alerter.cpp:397-464 | over any run the notices of a stateful alert are a raise, a cancel, a raise and so on; the last is a raise exactly when it is stored as raised or dropping |
| AlerterTheorems.AlternatingMeans | alert/alerter.cpp:397-408 | the invariant that each step keeps means this for all positions of the log |
| AlerterTheorems.NoticesCountTheRaised | alert/alerter.cpp:418-430 | raise notices less cancel notices are the stored alerts that are raised or dropping; none is stored as nonexistent or canceled |
| AlerterTheorems.OneShotsAreConserved | alert/alerter.cpp:286-383 | for each id, the emit requests inside the acceptability window are the counts of its notices plus the count stored; the deduplicating counter is the size of the map |
| AlerterTheorems.RiseDateStays | alert/alerter.cpp:176-284 | no step changes the rise date of an alert that stays stored |
| AlerterDates.FlappingDoesNotPostpone | alert/alerter.cpp:207-227 | however it was raised and canceled meanwhile, a rising alert becomes visible at its rise date plus the rise delay or at the first match of the window later than a second before that, as seen at a moment of the run after it rose; one that may rise not before |
| AlerterDates.NeverRaisedEarly | alert/alerter.cpp:332-374 | a raise that was not immediate is, without a window, never notified before its rise date plus the rise delay; with one, never before the first match later than one second before that, which may be up to 999 milliseconds short of it, unless none matched up to the horizon of a moment between its rise and its notice |
| AlerterDates.VisibleFromMeans | alert/alerter.cpp:541-550 | the corrected date is the earliest match later than one second before the rise date plus the delay, up to the horizon; it is invalid if and only if there is none |
| AlerterDates.NotifiedAtOnceExactly | alert/alerter.cpp:358-365 | an alert that is raised and polled at the same moment, whatever else is stored, is notified once if its rise delay is zero without a window, if with one a match is reached or there is none up to the horizon, and otherwise not |
| AlerterDates.ShownOnNoDay | alert/alerter.cpp:541-550 | a run of two events that notifies an alert to be shown on the thirtieth of February, an hour after it rose at the earliest, as soon as it rises |
| AlerterDates.PollSees | alert/alerter.cpp:332-374 | whatever else is stored and in whatever order, a poll does to an alert what its own record says, once |
| AlerterDates.VerdictDoesNotDependOnPolls | alert/alerter.cpp:340-357 | over any run that neither raises nor cancels it, an alert that may rise stays as it is until a poll reaches one of its dates; then it is gone without notice if its cancellation date precedes its visibility date, and otherwise raised with exactly one notice, whatever the poll times and the other alerts |
| AlerterRequests.RaisedFromNothing | alert/alerter.cpp:217-223 | a raise of an alert that is not stored is notified by the first poll that reaches its first visible date, and not before |
| AlerterRequests.RaisedWhileItMayRise | alert/alerter.cpp:211-223 | a raise of one that may rise is notified at once if its visibility date is reached, and otherwise by the first poll that reaches the first visible date from its first rise |
| AlerterRequests.RaisedWhileDropping | alert/alerter.cpp:224-226 | a raise of one that is dropping leaves it raised without notice |
| AlerterRequests.CanceledWhileRising | alert/alerter.cpp:266-271 | after a cancel of a rising alert, the first poll at the end of the mayrise delay or later drops it without notice if it was to be visible later than that, and otherwise raises it with one |
| AlerterRequests.DroppedAfterItsDelay | alert/alerter.cpp:273-276 | after a cancel of a raised alert, the first poll at the end of the drop delay or later cancels it with one notice; until then nothing is notified |
| AlerterRequests.RaisedImmediately | alert/alerter.cpp:191-205 | an immediate raise is notified at once unless channels know, and leaves the alert raised |
| AlerterRequests.CanceledImmediately | alert/alerter.cpp:243-258 | an immediate cancel is notified at once if channels were told of a raise, and leaves nothing |
| AlerterRequests.OutOfItsWindow | alert/alerter.cpp:180-185 | a raise or an emit out of the acceptability window changes nothing |
| AlerterRequests.InsideExactly | alert/alerter.cpp:180-185 | a moment is inside a window exactly if there is none, or it is within a second of a date and time whose parts its fields hold |
| AlerterEmits.EmitActs | alert/alerter.cpp:286-330 | an accepted request is notified at once, in one notice with all that were held back, if nothing was stored and the visibility window is open, or what was stored is past its date, which is then the delay from now; otherwise it is held back and the date stays |
| AlerterEmits.NothingIsHeldBack | alert/alerter.cpp:286-330 | in any reached state, once a request is notified all accepted requests so far have been |
| AlerterEmits.HeldUntil | alert/alerter.cpp:315-328 | over any run whose clock does not go back, whatever is asked for, nothing is notified of a stored one-shot alert before its date |
| AlerterEmits.NotAgainBeforeItsDelay | alert/alerter.cpp:286-383 | over such runs, after a request that was notified the next notice comes after the duplicate emit delay at the earliest |
| AlerterEmits.NotifiedByPoll | alert/alerter.cpp:375-383 | over any run without further requests, what is held back is notified in one notice by the first poll that reaches its date and forgotten then; nothing else is notified |
| AlerterTheorems.ApplyKeeps | alert/alerter.cpp:176-383 | any raise, cancel, emit or poll keeps the invariants |
| AlerterTheorems.RunKeeps | alert/alerter.cpp:176-383 | so does any run, whether or not the clock goes back |
| Alerter.Alerter.constructor | alert/alerter.cpp:62-97 | a new alerter is in the initial state |
| Alerter.Alerter.CommitChange | alert/alerter.cpp:449-464 | a changed alert is stored, a canceled or null one removed |
| Alerter.Alerter.DoRaiseAlert | alert/alerter.cpp:176-234 | takes the step RaiseAlert, for all statuses, immediate or not, out of the acceptability window or not |
| Alerter.Alerter.DoCancelAlert | alert/alerter.cpp:236-284 | takes the step CancelAlert |
| Alerter.Alerter.DoEmitAlert | alert/alerter.cpp:286-330 | takes the step EmitAlert: first, duplicate, or notified again with its count; EmitActs says what that comes to |
| Alerter.Alerter.PollAlert | alert/alerter.cpp:335-373 | takes the step of one alert in a poll |
| Alerter.Alerter.AsyncProcessing | alert/alerter.cpp:332-383 | the loops over copies of both maps see each alert that was there once, in any order, and take its step |
| DotGlob.ConvertDotHierarchicalFilterToRegexp | config/configutils.cpp:95-143 | the loop emits the text that the recursive definition says |
| DotGlob.LexConverted | config/configutils.cpp:97-139 | the text is lexed in one way, as the tokens of the filter between two anchors |
| DotGlob.ConversionPreservesMatching | config/configutils.cpp:95-143 | without bars, the regular expression finds a match in a line if and only if the filter matches the line |
| DotGlob.BarMatchesTooMuch | config/configutils.cpp:135-136 | with a bar, some line is matched by the regular expression and not by the filter |
| DotGlob.ConversionIsRightExactly | config/configutils.cpp:95-143 | among filters without braces and escaped specials, the conversion preserves matching on all lines if and only if the filter has no bar |

## Left out

Scheduler:

- Timestamps of instances are modelled as set or not set, since statuses depend on nothing more; durations and the alerts on them are not modelled.
- The maps of live and of all instances share their data in the original; here one store holds the data and the live map is a set of its keys.
- Sets of ids that the original iterates in hash order are iterated in ascending order; the live map is ordered by id in the original too.
- The order of hosts that a cluster's balancing yields, and which hosts are up, are inputs that any event may change; which actions an event triggers, awaited ids and deduplicate criteria are inputs too.
- The stop date that an executor sets and the handling of its signal are one step.
- A slot is counted when an instance is launched, where the original counts it first and gives it back when no host is found; for an invalid target the two agree after the step.
- Plan requests that are refused for their parameters or form, parameters themselves, notices, triggers that fire, shutdown, retries inside an executor, logs and the alerts that the scheduler raises.
- SchedulerSheep.PlannedSheepIsDecided: is about a single wait as queue condition, or none; for several NothingGuessed says what happens.
- SchedulerSheep.HopelessSheepIsCanceled: takes that the herder is still there after the reevaluation, since its end leaves the sheep to be an orphan.
- SchedulerStart.LowestGetsTheExecutor: is about one idle executor, no forced instance and actions that ask for nothing; StartsOnTheFirstHost is about any start.
- SchedulerEnds.LastSheepKeepsItsHerder: is about the first request of its actions.
- SchedulerEnds.ReloadLeavesNoOrphans: is about actions that ask for nothing; a herder whose task is gone may otherwise stay, as CancellationIsLost shows.
- SchedulerEnds.HerderThatDoesNotWait: is about steady runs, because a reload may change the policy of a task.
- Scheduler.Scheduler.DoAbortTaskInstance: does not model the signal to the executor, whose stop is a later event.
- Scheduler.Scheduler.constructor: starts with a configuration and its executors, where the original starts with none and gets them at the first load.
- Scheduler.Scheduler.CancelOrAbortHerdedTasks: does not model aborting running sheep, whose stops are later events.
- Scheduler.Scheduler.ActivateConfig: does not model external parameters, checks of triggers and the actions of a load.
- SchedulerTheorems.ResourcesInUse: is about steady runs; a host whose name is empty is left out when instances were forced, since those not started target it.
- SchedulerTheorems.MaxPerHost: takes that nothing was finished again; AccountsAreExact gives it without that for runs where no keeplast task has a limit that can be reached. The resource that stands for maxperhost is any resource.
- SchedulerAgain.StoppedHerderAgain: takes that tasks without keeplast are within their limits, which EnqueueDeduped and DuplicatesAreBounded give; for any number of nested requests it is necessary and not sufficient, because whether the last sheep goes depends on the order in which the requests displace others. StoppedAgainExactly is exact for one request, NeverTwiceExactly over all runs.
- SchedulerAgain.FinishedAgainOnlyIf: is necessary only, for the same reason.
- SchedulerTwice.StoppedAgainExactly: is about actions that ask for one instance, whose own actions and those of the instances it displaces ask for nothing.
- SchedulerCancel.CanceledExactly: for a queued herder, takes that it cannot be displaced: its task does not limit its queued instances, or is not asked for, or is within its limit and not keeplast, and nothing is forced nor asked to be.
- SchedulerTheorems.RunningCountIsRight: is about steady runs, because a reload may remove a task that has running instances and restore it later.
- SchedulerQueue.DuplicatesAreBounded: takes a constant maxqueuedinstances; for keeplast tasks its condition on the run is sufficient, the exact ones being WithinLimitExactly over all runs and KeptWithinLimitExactly for one arrival; the same holds for EnqueueDeduped, whose keeplast case WithinLimitAlike replaces for tasks that do not wait.
- SchedulerDuplicates.KeptWithinLimitExactly: is about an arrival at the limit while no action of the event asks for the task.
- SchedulerLimit.WithinLimitExactly: is about actions whose answers within an event depend on the task of the instance only, when it is planned or canceled without having started; those of instances that start or stop are free. What else an expression may refer to, such as the parameters of one instance, is covered by WithinLimitWhateverAnswers only.
- SchedulerDuplicates.BeyondLimitByChange: that an expression comes to something else the second time is an input; how expressions are evaluated is not modelled.
- A chain of calls without end is modelled as the absence of a finite script; the exhaustion of the stack in the original is not.
- That a refused or planned instance is ever queued or started: the original does not promise it.

Conditions:

- The expression of a wait is a set of ids; how it is evaluated is not modelled.

Gridboard:

- Trees are values held by the address of their root; only roots are shared in the original, by indexes and components.
- Gridboard.Gridboard.constructor: takes the dimensions as they were read; the original refuses other numbers of them than one or two.
- The matching of alerts, parameters, the warning delay, colours and HTML.

Cron trigger:

- CronTrigger.Trigger.constructor: takes the texts of six fields; how the original cuts a text with other spaces than single ones between fields is not modelled. Steps are read as the regular expression of the original reads a field's comma-separated parts, without spaces.
- Time zones and their transitions, since hours are skipped on epoch hours: all dates are in UTC. Numbers too large for a machine integer.

Alerter:

- Reload of the settings, subscriptions, channels, caches, counters of requests and high-water marks.
- AlerterDates.NeverRaisedEarly: allows the second by which the search for a match starts early, as the original does; it bounds the moment of the search by the rise and the notice when the clock never goes back, and by the events of the run otherwise.
- AlerterEmits.NotAgainBeforeItsDelay: is about alerts without a visibility window; HeldUntil is about all of them, with the date that VisibleFromMeans describes.
- AlertBoard.BoardFollowsRequests: takes the status of one alert's own point; how alerts are matched to boards and points is not modelled, nor a full buffer.
- The clock is read once by each handler; how far ahead a window is searched is a parameter.

Dot-glob filters:

- DotGlob.ConversionIsRightExactly: is about the same filters as ConversionPreservesMatching.
- DotGlob.ConversionPreservesMatching: is about filters without braces and without a backslash before another special character, which the original says it does not convert.
- The case-insensitive option, raw regular expressions between slashes, characters beyond the basic plane.
- Of the regular expression language only what conversions emit: literals, escapes, classes, stars, bars and anchors.

Processes, ssh, docker and HTTP executors, configuration files, user interfaces and access control are not part of this model.

# Verification of the Tasking Framework core

This project models the scheduler core of the Tasking Framework and proves what it is there for. The imperative parts are
Dafny classes over the same linked structures as the original, each proved against a function on sequences; what the
framework promises over whole runs is then proved of these functions. `dafny verify dfyconfig.toml` checks everything.

## Components

- **Clock event queue** (`Clock.dfy`, `ClockQueue.dfy`, `ClockRuns.dfy`, `ClockLinks.dfy`, `Events.dfy`). The list is
  linked through the events and searched backwards by pointers that skip whole blocks of equal times. The invariant is a
  prefix of due events in any order followed by the later ones in order; `previous` means something for later events only.
- **Event loop** (`PeriodicEvents.dfy`, `EventLoop.dfy`). The loop of `handleEvents` with the clock standing still, over
  any queue of periodic and other events. The description of `SchedulerUnitTest::schedule` says that an event with a higher
  frequency than the time span triggers one time only (`include/schedulerUnitTest.h:45-46`); the code fires it once for each
  activation that is due, and that is what is proved. It fires once exactly if t <= now < t + period
  (`PeriodicEvents.DueOnce`).
- **Task activation** (`InputRules.dfy`, `Tasks.dfy`, `Protocol*.dfy`). `Tasks` holds the objects as one thread uses them.
  `Protocol` is the same state machine for any number of notifying threads, workers, tasks and groups, as interleaved
  atomic steps: the increment of an input, the test after it, entering `activate`, each single read of an input during the
  test of the array, the decision, fetching a task (any one of the run queue), the start and the end of its execution, the
  group check, the reset of each input, and the test at the end of a reset. `ProtocolShape` proves who holds what,
  `ProtocolActivation` that no activation is lost, `ProtocolCounting` the counts, and `ProtocolRuns` states the results for
  all runs from a start with reset on empty inputs. `ProtocolGroups` proves how often a group is reset, `ProtocolProgress`
  that without further notifications every run ends, and only when all notifications are answered, and `ProtocolAlone` that
  the steps of one call without interference are the methods of `Tasks`. In the model `received` counts notifications,
  `rounds` resets of an input, `executions` executions of a task and `epochs` resets of a group; they decide nothing.
- **Scheduling policies** (`PriorityQueues.dfy`, `PolicyRuns.dfy`, `Policies.dfy`). The slots and the sorted list as two
  pointer structures, and the answers both give to any sequence of calls.
- **Periodic schedules** (`PeriodicSchedules.dfy`, `PeriodicScheduleRuns.dfy`). The sorted list of triggers and its player.
- **FIFO with readers** (`FifoPool.dfy`, `FifoDelivery.dfy`, `FifoReads.dfy`, `Fifos.dfy`). Cells move between three lists
  that share one link; bit masks are sets of bit positions, and the mask of the FIFO keeps the lowest eight.
  `FifoDelivery` numbers the pushes and follows each reader through any run; the two halves of a push and of a join are
  steps of their own there.
  `FifoReads` says how much a reader may pop, and ties the runs to the operations of `Fifos` as whole steps.

`Sequences.dfy` and `Arithmetic.dfy` hold facts about sequences and quotients.

## Where the code needs a condition

- `enqueueHead` queues an event without marking it, and only a marked event is left alone by a start and taken out by a
  reset. Starting an event that is in the queue unmarked links it a second time: the list becomes a cycle or loses events.
  `ClockLinks.StartHoldsAllIff` gives the exact condition, `ClockLinks.UnmarkedStart` what is read then and
  `ClockLinks.StartedTwice` an example. It happens when an event with a relative delay of zero is reset twice before it is
  handled, for instance by two inputs that it feeds (`src/taskInput.cpp:112-119`), and when `setPeriodicTiming` is called
  twice with an offset that is now.
- The cached search start of the clock is lost when the first event of an empty queue is followed by a later one before
  the next start time has been asked: null matches null at `src/clock.cpp:195`. `ClockRuns.AskAfterEnqueue` gives the exact
  condition for a wrong answer, `ClockRuns.UndisciplinedRunFails` an example.
- An input array without an ordinary input, that is one with a threshold and not final, counts as activated before any
  notification. No activation is lost exactly for tasks that have one (`ProtocolRuns.NoLostActivation`); an activation by
  notifications is never lost (`ProtocolRuns.EveryCallReported`).
- Switching an input to synchronous mode while it has missed notifications and more than the threshold of counted ones
  overwrites the missed ones (`InputRules.SwitchConserves`). This takes a new configuration with a lower threshold in
  between (`InputRules.LosesNothing`, `InputRules.ConfigurationLoses`, `InputRules.LoweredThreshold`).
- A reader of a FIFO that sees nothing but holds items gets an item twice at the next synchronization
  (`FifoDelivery.SynchronizeExactly`), and a ninth reader never gets what is pushed after it joined
  (`FifoDelivery.NinthReader`).
- A push reads the mask of all readers outside of its two critical sections. A reader that enters the mask afterwards and
  marks the cells before the push ends misses its item (`FifoDelivery.LatePush`, `FifoDelivery.LateItemLost`).
- The two policies differ for different priorities that both reach the last slot (`PolicyRuns.AgreeExactlyWhen`).

## Model

| member | source | states |
|---|---|---|
| Clock.Clock.FindPredecessor | src/clock.cpp:146-152 | The backward search that skips whole blocks of equal times finds the last event that is not later than the new one, although it looks at one event per block only |
| Clock.Clock.RelinkBlock | src/clock.cpp:206-215 | The loop over a block gives exactly the events of that block the new predecessor and leaves all other pointers alone |
| Clock.Clock.RelinkFront | src/clock.cpp:159-164 | The loop that recognises the head block by its null pointers ends exactly at the end of that block |
| Clock.Clock.Enqueue | src/clock.cpp:126-220 | The list keeps its whole shape; its entries become those of the stable insertion, with the cached search start of the abstract queue; the result is true exactly if no queued event is later than now and at most at the new time |
| Clock.Clock.EnqueueHead | src/clock.cpp:224-253 | An event that is due goes in front of everything; the list keeps its shape and the mark of the event is not changed |
| Clock.Clock.Dequeue | src/clock.cpp:283-356 | Removes exactly the given event wherever it is, or nothing if it is not queued; the list keeps its shape, the tail and the cached search start are right and the event is unmarked |
| Clock.Clock.ReadFirstPending | src/clock.cpp:383-428 | Reads the first event of the queue if it is due and nothing otherwise; the remaining list keeps its shape |
| Clock.Clock.GetNextStartTime | src/clock.cpp:432-466 | The search from the cached start is the one of the abstract queue, and caches where it ended |
| Clock.Clock.IsPending | src/clock.cpp:369-379 | True exactly if some queued event is due, though only the head is looked at |
| Clock.Clock.DequeueAll | src/clock.cpp:257-279 | Empties the queue with its head and tail, unmarks its events and forgets the cached search start |
| Clock.Clock.StartAt | src/clock.cpp:39-86 | Queues an event that is not queued for later or at the head, signals exactly for the latter, and starts the timer with the remaining delay exactly if no queued event is later than now and at most at the new time; an event marked as queued is left alone |
| Clock.Clock.StartIn | src/clock.cpp:90-122 | A delay counts from a first reading of the clock; without one the event is due at once and stays unmarked. It signals exactly if the start is due at the second reading or there is no delay, and starts the timer with the remaining delay exactly if no queued event is later than that reading and at most at the new time |
| ClockQueue.InsertedBackward | src/clock.cpp:153-173 | After an insertion at the head of a queue with later events only, the new pointers are again the predecessors of the blocks |
| ClockQueue.InsertedMiddle | src/clock.cpp:174-216 | After an insertion behind another event and the correction of one block the pointers of all later events are again the predecessors of their blocks |
| ClockQueue.Removed | src/clock.cpp:325-350 | Correcting the block behind a removed event, and only if its time differs, keeps all pointers of later events right |
| ClockQueue.Popped | src/clock.cpp:399-424 | Removing the head and clearing the pointers of the new head block keeps all pointers of later events right |
| ClockQueue.FirstBlock | src/clock.cpp:159-164 | If everything queued is later than the new event, then exactly the head block has null pointers |
| ClockRuns.StepKeepsWellFormed | src/clock.cpp:39-466 | Every operation and the passing of time keep a prefix of due entries followed by the later ones in order, distinct events, a cached event that is queued, and marks on queued events only and on all that are later, if no event is started that is in the queue without being marked |
| ClockRuns.RunReadsWhatIsDue | src/clock.cpp:383-428 | In every state that a run without such starts reaches an event is read exactly if some queued event is due |
| ClockRuns.ReadTakesHead | src/clock.cpp:383-428 | What is read is the head of the queue, which is due, and the rest stays as it is; otherwise nothing changes |
| ClockRuns.StartAdds | src/clock.cpp:39-86 | A start adds exactly the event with its time to the queue |
| ClockRuns.DequeueTakes | src/clock.cpp:283-356 | A removal takes exactly the event out of the queue |
| ClockRuns.EnqueueSortsIn | src/clock.cpp:144-216 | The insertion found from the tail leaves the due entries in front and sorts the new one into the later ones, first in first out for equal times |
| ClockRuns.StopUndoesStart | src/clock.cpp:283-356 | Removing an event right after its start leaves the queue as it was |
| ClockRuns.SoundSearch | src/clock.cpp:432-466 | With a sound cache the answer is the earliest time later than now of the whole queue, or zero if there is none |
| ClockRuns.EnqueueKeepsCacheIff | src/clock.cpp:168-203 | An insertion keeps the cache sound if and only if it is not the one at the tail behind a later entry while nothing was cached |
| ClockRuns.AskAfterEnqueue | src/clock.cpp:194-198 | A question right after an insertion is answered wrongly if and only if the new entry is the last one, nothing was cached and an earlier entry is still to come |
| ClockRuns.DisciplinedRunAnswers | src/clock.cpp:432-466 | Every question is answered right in every run without such starts that asks after each insertion for later into an empty queue and before the next one |
| ClockRuns.UndisciplinedRunFails | src/clock.cpp:194-198 | Two events queued for 5 and 7 without a question in between: the answer is 7 |
| ClockLinks.StartHoldsAllIff | src/clock.cpp:46-73 | The assignments of a start to the head and the next pointers leave a list that ends and holds what was queued and the event, each once, if and only if the event is not in the queue or is marked |
| ClockLinks.UnmarkedStart | src/clock.cpp:126-253 | What is read after a start of the unmarked event at index k: for a due time the first k + 1 events in a cycle for ever, for a later one the event itself for ever from index k on, or the list without the events between k and where the search ended |
| ClockLinks.UnmarkedStartLoses | src/clock.cpp:126-253 | The events behind the one at index k, up to where the search for a later time ended, are never read again |
| ClockLinks.StartedTwice | src/clock.cpp:225-253 | An event started for now behind another one, and started again: it is read again and again and the other one is lost |
| ClockLinks.StartedChain | src/clock.cpp:46-73 | In all other cases the links run through the queue of the abstract start |
| ClockLinks.LinksOfQueue | src/clock.cpp:126-253 | The head and the next pointers of the clock run through its entries |
| Events.FirstStartIsLeast | src/taskEvent.cpp:303-309 | A late periodic start moves to the first time later than now that is a number of periods after the offset |
| Events.NoEarlierStart | src/taskEvent.cpp:299-305 | With one reading of the clock the first start is not after the offset, if it is to come, nor after any time on the grid that is later than now |
| Events.FirstStartExactly | src/taskEvent.cpp:303-305 | The first start is not after any time on the grid from now on if and only if the offset has not passed or now is not on the grid; otherwise it is one period later |
| Events.SetPeriodicTiming | src/taskEvent.cpp:48-64 | The event leaves its place in the queue and is queued again: for the offset if that has not passed, for the reading of the clock if it has and there is no period, and otherwise for the first later time on the grid; it is marked afterwards exactly if that start is later than now |
| Events.RestartedEntries | src/taskEvent.cpp:48-64 | When an event is started again exactly its own entry changes in the queue |
| Events.Reset | src/taskEvent.cpp:194-208 | Restarts the delay of an event with relative timing and does nothing to others; the event is marked afterwards exactly if the delay has not passed, so not for a delay of zero |
| PeriodicEvents.FiresOncePerDueActivation | src/taskEvent.cpp:257-284 | With the clock standing still each plain periodic event due first at t fires (now - t) / period + 1 times, or never if t is later, and is left queued for the first time that is not due |
| PeriodicEvents.DueOnce | include/schedulerUnitTest.h:45-46 | An event fires one time only exactly if its first activation is due and its second one is not |
| PeriodicEvents.FiresOneShot | src/taskEvent.cpp:257-284 | An event that is not periodic fires once and leaves the queue if it is due, and stays as it is otherwise |
| PeriodicEvents.LeavesNothingDue | src/scheduler.cpp:124-133 | After the loop nothing is due, every periodic event is still queued, and only events that were queued have fired |
| PeriodicEvents.HandledProgress | src/scheduler.cpp:124-133 | Each round lowers the number of outstanding activations by one, which is why the loop ends |
| PeriodicEvents.DueIsFloor | src/taskEvent.cpp:264-268 | The number of due activations in closed form |
| EventLoop.SchedulerImpl.Handle | src/taskEvent.cpp:257-284 | A periodic event is started one period later, and any event is pushed once exactly if its hook agrees |
| EventLoop.SchedulerImpl.HandleSchedule | src/taskEvent.cpp:268-273 | An event that plays a schedule has pushed the triggers of the active offset and is started for the time of the next trigger |
| EventLoop.PlaysRounds | src/taskEvent.cpp:268-273 | Handling after handling a schedule is played round by round: the pushes are those of the next round and the event is started for the time of the one after it |
| EventLoop.SchedulerImpl.HandleEvents | src/scheduler.cpp:124-133 | The loop over the linked list, with periodic and other events in it, ends with the queue and the pushes of the abstract event loop |
| Tasks.InputImpl.constructor | src/taskInput.cpp:46-52 | A configured input is synchronous exactly if it is not optional |
| Tasks.InputImpl.Configure | src/taskInput.cpp:46-52 | A new configuration keeps what has been counted and missed |
| Tasks.InputImpl.SetSynchron | src/taskInput.cpp:56-79 | Notifications beyond the threshold become missed ones, or all missed ones count again |
| Tasks.InputImpl.NotifyInput | src/taskInput.cpp:233-265 | A notification counts as missed exactly for a synchronous input that is already activated; the task is to be activated exactly if the counted notification leaves the input activated |
| Tasks.InputImpl.Reset | src/taskInput.cpp:112-146 | A synchronous input takes over what it had missed and asks for activation exactly if that reaches the threshold; any other one starts from zero |
| Tasks.InputArray.IsActivated | src/taskInputArray.cpp:65-122 | The two loops with early exits decide the rule over the whole array: an activated final input, or every input activated, final or optional |
| Tasks.TaskImpl.Activate | src/task.cpp:150-184 | A waiting task runs and a resetting one becomes pending exactly if the array is activated; any other state is left alone |
| Tasks.TaskImpl.NotifyInput | src/taskInput.cpp:233-265 | A notification to a task with an ordinary input makes it run exactly if it waits and the array is activated afterwards; a task that is being reset becomes pending exactly if the notification activates its input and the array is activated |
| Tasks.TaskImpl.ResetInputs | src/taskInputArray.cpp:126-133 | All inputs are reset; the task is pending afterwards exactly if one of its inputs found the array activated by its own reset |
| Tasks.TaskImpl.Reset | src/task.cpp:89-107 | The task runs again exactly if the array is activated after the reset and some input was activated again by it, and waits otherwise |
| Tasks.GroupImpl.Join | src/taskGroup.cpp:46-61 | A task takes the first free slot; beyond the size of the group it is ignored |
| Tasks.GroupImpl.AreAllExecuted | src/taskGroup.cpp:87-96 | True exactly if every task that joined has finished |
| Tasks.SchedulerImpl.Perform | src/scheduler.cpp:110-119 | A task is queued exactly while the scheduler is running |
| Tasks.ExecuteQueued | src/schedulerUnitTest.cpp:46-50 | For one task outside of groups with synchronous inputs the loop ends, after exactly the executions that the notifications allow |
| ProtocolAlone.NotifiesAlone | src/taskInput.cpp:233-265 | Without interference the steps of a notification do what the method of the input and the task does: any idle notifier can notify any input, and the task is activated exactly if the notification is not a missed one and activates its input |
| ProtocolAlone.ActivatesAlone | src/task.cpp:150-184 | The steps of a call of activate together make a waiting task run and one in its reset pending exactly if the array is activated, and touch nothing else |
| ProtocolAlone.ResetsAlone | src/task.cpp:89-107 | The steps of a reset together make the task run exactly if the array is activated afterwards and some input was activated again |
| InputRules.SwitchConserves | src/taskInput.cpp:56-79 | A switch of the mode keeps the sum of counted and missed notifications if and only if it does not overwrite missed ones |
| InputRules.SwitchBack | src/taskInput.cpp:56-79 | Switching to synchronous mode and back keeps what has been counted, and the mode is synchronous exactly if the input is not optional |
| InputRules.ResetForgets | src/taskInput.cpp:141-145 | A reset in asynchronous mode forgets all that has been counted |
| InputRules.Accounting | src/taskInput.cpp:112-165 | After any mix of notifications, switches and k synchronous resets of an activated input with threshold n, m notifications have arrived and the input is activated exactly if k * n + n <= m, as long as it is not configured again |
| InputRules.Conservation | src/taskInput.cpp:46-146 | With any new configurations in between, every notification is outstanding, has been consumed by a reset with the threshold of that time, or is lost by a switch or reset with a threshold that is too small |
| InputRules.LosesNothing | src/taskInput.cpp:56-146 | Without a new configuration no use of an input loses anything |
| InputRules.ConfigurationLoses | src/taskInput.cpp:46-79 | After a new configuration the next switch to synchronous mode loses something if and only if the new threshold is positive and below the old one and there are missed notifications, and the next synchronous reset if and only if it is below the counted ones |
| InputRules.LoweredThreshold | src/taskInput.cpp:46-79 | Eight notifications for a threshold of five, a new threshold of two and a switch: three are lost |
| InputRules.PendingIff | src/taskInputArray.cpp:126-133 | An array that is activated after its reset has been found activated during it exactly if some input was activated again; with an ordinary input always |
| InputRules.AlwaysActive | src/taskInputArray.cpp:74-96 | An array of final and optional inputs only is activated whatever the notifications are |
| InputRules.ActiveExactly | src/taskInputArray.cpp:65-122 | An array is activated exactly if a final input is, or all inputs are that have a threshold and are not final |
| InputRules.EmptyStart | src/scheduler.cpp:44-52 | A start with reset on inputs without notifications activates nothing, and leaves an array that is activated exactly if it has no ordinary input |
| InputRules.ExecutionsAreLeast | src/taskInput.cpp:118-128 | Without further notifications the scarcest input decides how often a task runs: the least quotient of its notifications and its threshold |
| ProtocolShape.StepShape | src/task.cpp:89-213 | Every step of every thread keeps who holds which task and which mutex, and touches one call, one worker and one task only |
| ProtocolShape.LocalStep | src/task.cpp:89-213 | A step that keeps the shape of what it touches and takes nothing away from the others keeps the shape of everything |
| ProtocolShape.SyncExcludes | src/scheduler.cpp:137-149 | While a worker holds the synchronization mutex it alone checks groups and resets tasks, and no task begins or leaves its execution |
| ProtocolActivation.StepCovered | src/task.cpp:89-184 | Every step keeps that a task which waits or is being reset and is activated by notifications has a call that still has to report it, up to each single read of an input |
| ProtocolActivation.NotifyCovered | src/taskInput.cpp:233-265 | A notification that activates a task comes with the call that reports it |
| ProtocolActivation.DecideCovered | src/task.cpp:150-184 | A call that ends without activating the task has read an input too early, and then another call is on its way |
| ProtocolActivation.ResetInputCovered | src/taskInput.cpp:112-146 | The reset of an input that stays activated reports it itself |
| ProtocolActivation.CloseCovered | src/task.cpp:96-106 | The end of a reset loses nothing that was notified while it tested the inputs |
| ProtocolCounting.StepCounts | src/task.cpp:89-213 | Every step keeps the exact relation of executions, resets and notifications of every task, and of executions and group resets |
| ProtocolCounting.ResetInputPlain | src/taskInput.cpp:118-140 | Each reset in a run consumes exactly the threshold of an activated input |
| ProtocolRuns.NoLostActivation | src/task.cpp:89-184 | A waiting task never misses an activation in any interleaving if and only if it has an ordinary input: whenever its array is activated, a notifier is between its increment and the end of its call of activate |
| ProtocolRuns.EveryCallReported | src/task.cpp:89-184 | For every task in any interleaving: whenever it waits and an activated final input, or all ordinary inputs if there are any, activate it, a notifier is between its increment and the end of its call of activate |
| ProtocolRuns.OccupiesOnce | src/task.cpp:96-106 | From who holds what: a task occurs at most once among the run queue and the executing workers, and only in state run |
| ProtocolRuns.EnoughReceived | src/taskInput.cpp:112-146 | In every state that the steps reach each input has received the notifications of all executions |
| ProtocolRuns.MemberInStep | src/taskGroup.cpp:76-108 | The executions of a member are the resets of its group, or one more, and equal to them while it waits |
| ProtocolRuns.SingleOccupancy | src/scheduler.cpp:110-149 | In every run a task occurs at most once among the run queue and the executing workers, and not at all unless its state is run |
| ProtocolRuns.Throughput | src/taskInput.cpp:112-146 | In every run the executions of a task with synchronous inputs never exceed any quotient of the notifications and the threshold of an input, and equal the least one whenever nothing is queued, executed or called |
| ProtocolRuns.Lockstep | src/taskGroup.cpp:76-108 | In every run each member of a group executes exactly once between two resets of the group, so that the executions of two members differ by at most one; how often the group is reset is what ProtocolGroups.GroupThroughput says |
| ProtocolGroups.StepAttended | src/taskGroup.cpp:76-108 | Every step keeps that a group whose members have all finished has a worker that is about to check it or to reset its members |
| ProtocolGroups.SomeMemberWaits | src/taskGroup.cpp:76-108 | In no quiet state of any run all members of a group have finished |
| ProtocolGroups.GroupThroughput | src/taskGroup.cpp:76-108 | In every run the resets of a group of synchronous tasks never exceed any quotient of the notifications and the threshold of an input of a member, and equal one of them whenever nothing is queued, executed or called |
| ProtocolProgress.NoDeadlock | src/task.cpp:89-213 | With a worker, some step other than a notification is possible in every state that is not quiet |
| ProtocolProgress.IdleExactly | src/scheduler.cpp:110-149 | In every reachable state something goes on exactly until everything is idle |
| ProtocolProgress.StepLowers | src/task.cpp:89-213 | Every step but a notification lowers the number of steps that remain |
| ProtocolProgress.EveryRunEnds | src/task.cpp:89-213 | However any run goes on without further notifications, it ends after a number of steps known from its state |
| ProtocolProgress.EveryTaskCompletes | src/taskInput.cpp:112-146 | And when it cannot go on, every task with synchronous inputs outside of groups has executed as often as its scarcest input allows |
| ProtocolProgress.EveryGroupCompletes | src/taskGroup.cpp:76-108 | And every group of synchronous tasks has been reset as often as the scarcest input of all its members allows |
| Policies.SchedulePolicyPriority.Queue | src/schedulePolicyPriority.cpp:40-81 | The linked list becomes the stable insertion by priority; the result tells whether it was empty |
| Policies.SchedulePolicyPriority.NextTask | src/schedulePolicyPriority.cpp:85-99 | Takes the head of the list, or nothing if it is empty |
| Policies.SchedulePolicyPSlot.Queue | src/schedulePolicyPSlot.cpp:46-83 | The task goes to the end of the slot of its limited priority; the other slots and the index of the highest one are right |
| Policies.SchedulePolicyPSlot.NextTask | src/schedulePolicyPSlot.cpp:87-119 | Takes the head of the highest slot with a task, and the index moves down to the next such slot or to none |
| Policies.SchedulePolicyPSlot.Descend | src/schedulePolicyPSlot.cpp:101-113 | The downward loop stops at the highest slot with a task, or at the number of slots |
| PriorityQueues.FlattenInserts | src/schedulePolicyPSlot.cpp:58-80 | Appending to a slot is the sorted insertion into the slots put behind each other |
| PriorityQueues.FlattenTakes | src/schedulePolicyPSlot.cpp:92-115 | The head of the highest slot is the head of the slots put behind each other |
| PriorityQueues.SortedTakes | src/schedulePolicyPriority.cpp:85-99 | The head of the sorted list is the earliest of the most urgent tasks, and what remains is the sorted list of the others |
| PolicyRuns.PoliciesAgree | src/schedulePolicyPSlot.cpp:46-119 | With the priorities limited to the slots both policies give the same answers to every sequence of calls that never queues a queued task, which are those of a stable priority queue kept in the order of arrival |
| PolicyRuns.AgreeExactlyWhen | src/schedulePolicyPSlot.cpp:52-57 | Without limiting the priorities first they agree on all calls with some tasks that never queue a queued one if and only if no two different priorities of them both reach the last slot |
| PeriodicSchedules.PeriodicScheduleImpl.SortIn | src/taskPeriodicSchedule.cpp:42-73 | The linked list stays sorted and gains exactly the new trigger, in front of those with the same offset unless the head is one of them |
| PeriodicSchedules.PeriodicScheduleImpl.PushTriggers | src/taskPeriodicSchedule.cpp:77-87 | Pushes the active trigger and all in a row with its offset, and ends at the last of them |
| PeriodicSchedules.PeriodicScheduleImpl.StepToNextTriggerOffset | src/taskPeriodicSchedule.cpp:91-111 | Goes to the next trigger, or to the first one of the next period, and returns its time |
| PeriodicScheduleRuns.TimesIncrease | src/taskPeriodicSchedule.cpp:91-111 | The times of successive rounds of a schedule with all offsets inside the period strictly increase |
| PeriodicScheduleRuns.OncePerPeriod | src/taskPeriodicSchedule.cpp:77-111 | After any number of rounds each trigger has been pushed exactly once for each period in which it was due by then, at the start of the period plus its offset, and nothing else has been pushed |
| PeriodicScheduleRuns.EqualOffsets | src/taskPeriodicSchedule.cpp:42-73 | A new trigger comes before the others with its offset, except for the head of the list |
| Fifos.FifoGeneric.constructor | channels/src/fifoGeneric.cpp:171-188 | All cells are unused and have different addresses |
| Fifos.FifoGeneric.AllocatedCellIs | channels/src/fifoGeneric.cpp:214-253 | The allocated cell is found by its data |
| Fifos.FifoGeneric.Allocate | channels/src/fifoGeneric.cpp:191-210 | The first unused cell becomes allocated with the first bit set, if there is one |
| Fifos.FifoGeneric.Release | channels/src/fifoGeneric.cpp:214-253 | The allocated cell with this data loses the bit and is unused again if no bit is left; other data changes nothing |
| Fifos.FifoGeneric.Push | channels/src/fifoGeneric.cpp:311-364 | The allocated cell with this data becomes the last one of the FIFO and carries the mask of all readers, with the bits of all associated readers; other data is refused |
| Fifos.FifoGeneric.Pop | channels/src/fifoGeneric.cpp:368-392 | Without readers the first cell of the FIFO becomes allocated; with readers nothing happens |
| Fifos.FifoGeneric.ReleaseElement | channels/src/fifoGeneric.cpp:257-307 | A cell loses the bit and leaves the FIFO for the unused cells exactly if no bit is left, wherever in the FIFO it is |
| Fifos.FifoGeneric.AssociateReader | channels/src/fifoGeneric.cpp:434-482 | A new reader gets the first bit or the lowest free one above it, and all cells in the FIFO get that bit; a known reader changes nothing |
| Fifos.FifoGeneric.Synchronize | channels/src/fifoGeneric.cpp:546-600 | The window of the first reader of the task grows by the volume (FifoReads.SynchronizeGrows), from the first cell with its bit or behind its last cell; the other readers are left alone |
| Fifos.FifoGenericReader.Pop | channels/src/fifoGeneric.cpp:111-150 | The reader gets the first cell of its window and holds it, unless all links are in use |
| Fifos.FifoGenericReader.Release | channels/src/fifoGeneric.cpp:68-107 | The held cell with this data is released in the FIFO and no longer held; other data changes nothing |
| FifoPool.ReleaseElementKeeps | channels/src/fifoGeneric.cpp:257-307 | The release of a cell keeps every cell in exactly one of the three lists |
| FifoPool.AppendKeeps | channels/src/fifoGeneric.cpp:341-361 | Appending a cell with any mask keeps every cell in exactly one of the three lists |
| FifoPool.ReleaseKeeps | channels/src/fifoGeneric.cpp:214-253 | The release of an allocated cell keeps every cell in exactly one of the three lists |
| FifoPool.AllocateKeeps | channels/src/fifoGeneric.cpp:191-210 | An allocation keeps every cell in exactly one of the three lists |
| FifoPool.PopFirstKeeps | channels/src/fifoGeneric.cpp:368-392 | A direct read keeps every cell in exactly one of the three lists |
| FifoPool.ReleaseUndoesAllocate | channels/src/fifoGeneric.cpp:191-253 | The release of an allocated cell with the first bit puts it back as it was before the allocation |
| FifoPool.ReleaseFrees | channels/src/fifoGeneric.cpp:214-253 | An allocated cell is unused again exactly when it carries no other bit, and the other cells stay where they are |
| FifoPool.PushReachesAll | channels/src/fifoGeneric.cpp:311-364 | A pushed cell is the last one of the FIFO, no longer allocated, and has to be read by all readers |
| FifoPool.PopFirstTakes | channels/src/fifoGeneric.cpp:368-392 | A cell that is read directly leaves the FIFO and is allocated, and the others stay in order |
| FifoPool.AssociateMarks | channels/src/fifoGeneric.cpp:434-482 | A new bit is added to exactly the cells of the FIFO and, if it is one of eight, to the mask of all readers; no other bit changes |
| FifoDelivery.StepInvariant | channels/src/fifoGeneric.cpp:111-600 | Every step, with both halves of a push and of a join as steps of their own, keeps the partition of the cells, distinct bits of the readers, the masks in flight, and for each reader what it has got, holds, sees and still has to read, if no reader marks the cells while a push without its bit is in flight |
| FifoDelivery.RunInvariant | channels/src/fifoGeneric.cpp:111-600 | In every such run all this holds, and the three lists share the same cells as at its start |
| FifoDelivery.ExactlyOnce | channels/src/fifoGeneric.cpp:111-150 | In every run with at most eight readers in which no reader marks the cells while a push without its bit is in flight, and synchronizations stay within the unseen items and find nothing held by a reader that sees nothing, a reader that joins at some time pops exactly what is in the FIFO then and every later push, in order: what it has popped, followed by the unread end of the FIFO, is just that |
| FifoDelivery.AppendExactly | channels/src/fifoGeneric.cpp:341-361 | The second half of a push keeps the delivery to a reader if and only if the mask read by the first half carries its bit |
| FifoDelivery.LatePush | channels/src/fifoGeneric.cpp:341-343 | When a reader marks the cells while a push is in flight, the end of that push keeps the delivery to it if and only if the push has read its bit |
| FifoDelivery.LateItemLost | channels/src/fifoGeneric.cpp:341-343 | Otherwise, with nothing else in the FIFO, the reader finds nothing to be synchronized with although an item has been pushed since it joined |
| FifoDelivery.HeldIsSafe | channels/src/fifoGeneric.cpp:257-307 | In every run a cell that a reader has popped and not released is neither unused nor allocated again |
| FifoDelivery.RecycledWhenRead | channels/src/fifoGeneric.cpp:267-304 | A cell leaves the FIFO for the unused ones only by the release of the last reader whose bit it carries, and no other reader holds it then |
| FifoDelivery.SynchronizeExactly | channels/src/fifoGeneric.cpp:560-581 | A synchronization keeps the delivery in order if and only if a reader with an empty window holds nothing; otherwise the next item it gets is one it has got before |
| FifoDelivery.NinthReader | channels/src/fifoGeneric.cpp:455-468 | Whatever is done after a ninth reader has joined, it finds a cell that was in the FIFO then or none; if the FIFO was empty it can never be synchronized with any later push |
| FifoReads.PushIsBothHalves | channels/src/fifoGeneric.cpp:311-364 | Both halves of a push one after the other are the push as the method does it |
| FifoReads.PushOk | channels/src/fifoGeneric.cpp:311-364 | The push as one step keeps the delivery to every reader |
| FifoReads.JoinIsBothHalves | channels/src/fifoGeneric.cpp:434-482 | Both halves of a join one after the other are the association as the method does it |
| FifoReads.AssociateOk | channels/src/fifoGeneric.cpp:434-482 | After the association as one step the new reader has to get all that is in the FIFO, in order |
| FifoReads.SynchronizeGrows | channels/src/fifoGeneric.cpp:546-600 | A synchronization lets the reader pop exactly as many cells more as its volume says |
| FifoReads.SynchronizesUnseen | channels/src/fifoGeneric.cpp:546-600 | A reader can be synchronized with exactly the items that it has to get and has not been granted yet |
| FifoReads.PopsWindow | channels/src/fifoGeneric.cpp:111-150 | A reader can pop exactly while its window is not empty and it has a link left |
| FifoReads.PopsAreSynchronized | channels/src/fifoGeneric.cpp:111-150 | In every run what a reader has popped since it joined and may still pop is the sum of the volumes it has been synchronized with |
| FifoReads.FirstInFirstOut | channels/src/fifoGeneric.cpp:368-392 | In every run without readers what has been read directly, followed by what is in the FIFO, is all that has been pushed, in order |

## Left out

- Execution models, mutexes, signals and timers of the platforms: a reading of the clock is a parameter that never
  decreases, a critical section is an atomic step, and no claim is made that a queued task wakes an executor.
- Wrap-around of times and counters: times stay below 2^63, as the signed difference at `src/clock.cpp:58` needs, and
  counters do not overflow. Increments of inputs in asynchronous mode, which take no mutex, are atomic steps as well.
- Setting the clock back (`setZeroTime`), which the queue does not survive.
- A start without reset, a restart after `terminate`, notifications that race with the start, and groups joined while
  running.
- Alternative activation conditions of input arrays (`setCondition`), and resets of the channel of an input.
- Protocol works on values, because its steps belong to several threads; update in place of the same objects is in `Tasks`.
- The reset loop of a group and `finalizeExecution` inside a group are steps of `Protocol` (`Retire`, `CheckGroup`,
  `StartReset` and the following ones); `Tasks.GroupImpl` has the filling of the slots and the test only.
- Clock.Clock.StartAt: requires that the event is not in the queue or is marked. Without that the list may become a
  cycle, and the correction of the previous pointers (`src/clock.cpp:209-215`) may not end, which no method can model;
  `ClockLinks.UnmarkedStart` says what becomes of the list and `ClockLinks.StartHoldsAllIff` that this requirement is the
  exact condition.
- Clock.Clock.StartIn: the same requirement for the same reason.
- Events.SetPeriodicTiming: the same requirement for the same reason.
- Events.Reset: the same requirement for the same reason.
- EventLoop.SchedulerImpl.Handle: `onFire` is a user callback; events that play a schedule are in `HandleSchedule`.
- EventLoop.SchedulerImpl.HandleEvents: events with the default `shallFire`, none of which plays a schedule; the player is
  followed through all its rounds on its own (`PeriodicScheduleRuns.OncePerPeriod`).
- Tasks.SchedulerImpl.Perform: the policy is a plain sequence, so that the order among queued tasks is left to `Policies`,
  and the signal to the execution model is not modelled.
- Tasks.ExecuteQueued: one task only, and its `execute` does nothing; the loops of `SchedulerUnitTest::schedule` around
  event handling and several tasks are not modelled.
- PeriodicEvents.FiresOncePerDueActivation: plain periodic events with the default `shallFire` and `onFire`; events that
  are stopped or started again by their receivers meanwhile are not in the loop.
- PolicyRuns.PoliciesAgree: calls that queue a queued task are excluded. Both linked structures link such a task to itself;
  the framework never does so (`ProtocolRuns.SingleOccupancy`).
- PolicyRuns.AgreeExactlyWhen: calls that queue a queued task are excluded for the same reason.
- FifoDelivery.ExactlyOnce: a reader is synchronized only after it has marked the cells. Readers do not leave:
  `releaseReader` clears the last cell of a FIFO that other readers still use and is not modelled. `releaseAll` is a
  sequence of single releases.
- The list of links of a FIFO reader is a sequence with the capacity of its pool, and so is the list of readers of a FIFO.
- `Event::setPeriodicSchedule`, which compares an absolute time with the period, `trigger` and `setRelativeTiming`.
- The LIFO policy, whose `queue` leaves a stale link in an empty queue, the FIFO policy, the other channels, barriers,
  statistics, identifiers, data copying and user callbacks: no hard members.

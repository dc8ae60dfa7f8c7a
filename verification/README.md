# Arbitration and lifecycles of the user authentication service

A model of the engine that decides which authentication requests of a device run, and of the objects whose lives it
drives, with proofs about all of their runs.

**Admission and preemption.** Every request is a context with an id and a creation time. It enters a queue, and a
promotion loop admits it, lets it wait, or has others stopped for it: in effect a fair lock on the PIN of each user,
shared by ordinary authentications and exclusive for sudo requests, with preemption and one session per caller. Stops
and starts run as tasks on one thread. `Contexts` holds the policy, `Promotion` the closed form of one promotion,
`PoolOperations` the operations and their invariant, `ContextPools` the class that implements them with the loops of
the source. `PoolRuns` puts pool, callers and executor into one step relation; posts of different callers interleave,
and the sections of a stop or start task are separate steps. On its runs `PoolCancellation`, `PoolStarts`,
`PoolRestarts`, `PoolOrder`, `PoolOvertaking` and `PoolNewest` prove that cancelling wins, that a context is started
once, that stops come before the starts they make room for, and that the newest session wins, each with the exact
condition under which it does. `PoolDuties` proves that plans are carried out: the tasks posted are those a promotion
calls for, whoever is in a stop plan is stopped, and whoever is let in is started or stopped. `Selection` holds the
facts about splitting a sequence that all of this rests on.

**Lifecycles.** `WidgetLifecycle` and `SudoLifecycle` give each critical section as a function on the state of the
object, `WidgetContexts` and `SudoAuthContexts` give the classes whose methods compute those functions, and the lemmas
range over all interleavings of the sections, including calls that get in between the two halves of a stop.
`SudoInPool` and `WidgetInPool` let the tasks of the pool make the calls, and the context make its calls to the pool.
`SudoResults` and `WidgetResults` trace every result back to the call that gave reason for it.

**Machinery.** `PackedKeys`, `StateMachines`, `StateMachineBuilders`, `StateMachineRuns` and `StateMachineRequests`
cover the generic finite state machine, from the transitions asked for to the path it takes; `ThreadHandlers` and
`ThreadHandlerRuns` the named worker threads and their two-hop destruction.

**Codecs.** `RemoteMessages` covers the message that starts a remote authentication, `Utf8Count` the character
counter.

`dafny verify dfyconfig.toml` verifies everything.

## Assumptions

- Callbacks, thread handlers and contexts are not null, allocation succeeds, and registering a timer yields a nonzero
  id.
- The executor runs one task at a time. `PoolRuns` lets it pick tasks in any order; only `PoolOrder` and
  `PoolOvertaking` ask for first in, first out.
- Preempt answers do not change during one promotion. Which sudo dialogs show may change between any two steps.
- Each context object is scheduled at most once, the pool calls `Start` only from its start task, and each launched
  child reports at most once.
- What a widget context asks of its schedule comes back as a later, separate call.

## Where a promise ends

- Cancelling a context whose start task has already looked into the pool, and has yet to call it, comes too late:
  `CancelWins` holds if and only if that is not the case.
- Of two widget requests created at the same instant both stay, primary ones included (`EqualTimesKeepBoth`); a
  newcomer displaces a pooled one of its session if and only if it is strictly younger (`SupersedesIffYounger`).
- Ids are 64-bit random numbers in the source, checked only against the contexts pooled at the time, and tasks know
  contexts by id alone. A newcomer can be given to a start task after its Start was called if and only if a start task
  for an earlier holder of its id is on its way when it is taken in (`StartedAtMostOnce`).
- Only in that case can a newcomer be started before a context it displaces was stopped (`StartsAfterStops`). Some run
  does so to a pooled context, running or waiting, if and only if such a task may come in front of all stops of
  somebody in its way, or of an older conflicting sudo context ahead of it in the queue (`OvertakesIff`,
  `NewcomerOvertakesIff`; `StaleStartOvertakesStop` is an instance).
- A start of a context of the base class that has started before makes a second result possible; one after an early
  stop does not (`TwoResultsIffRestarted`). The pool makes such a call in some run if and only if, when the context is
  taken in, a start task for an earlier holder of its id is on its way, the id is not on the list of requested
  cancellations, and no stop task for it is about to look into the pool (`RestartsIffStale`). That is the exact
  condition under which a sudo context can give its caller two results (`TwoResultsIffStale`).
- A widget context gives its caller at most one result whatever the pool calls (`WidgetInPool.PoolGivesOneResult`). A
  start of a running session ends that session with the reported error (`BreakingInEnds`), which can happen under that
  same condition (`BreaksInIffStale`).
- A task of a state machine leaves an event behind with no task to take it if and only if it had more than 100 events
  to take and no other task is posted or about to be (`StrandsIff`). With callbacks that push nothing that never
  happens (`NoEventForgotten`); `PushingCallbacksStrandEvents` is an instance where it does.
- A remote request for no particular user is read as one for the active user of the verifier, and fails if there is
  none (`RoundTrip`).

## Model

| member | source | states |
|---|---|---|
| Contexts.CanStartIffNoConflict | services/context/src/context_arbitration_policy.cpp:58-79 | a context may start iff it conflicts with no visible predecessor, where two contexts conflict iff both are primary authentications that bear the PIN of one valid user and at least one is a sudo request |
| Contexts.ConflictIsSymmetric | services/context/src/context_arbitration_policy.cpp:45-56 | that conflict relation does not depend on which of the two asks |
| Contexts.UsesPinIff | services/context/src/context_arbitration_policy.cpp:27-43 | whose PIN a context contends for, by kind, flag, configured types and user: sudo requests always, the other authentications if primary and configured for the PIN, no other context |
| Contexts.SameCallerIff | services/context/src/context_pool_impl.cpp:61-74 | which requests are one made again: same kind, caller and user, both primary, and of the single-factor authentications the same type |
| Contexts.YieldsIff | services/context/src/sudo_auth_context.cpp:114-132 | a context yields to a newcomer iff both are widgets, or it is a sudo context whose dialog shows and the primary newcomer would take its window or conflicts with it |
| Promotion.AdmittedIff | services/context/src/context_pool_impl.cpp:345-395 | after a promotion a waiter runs iff every conflicting context among the old running ones and the waiters ahead of it is one it puts in the stop plan; otherwise it still waits |
| Promotion.PromotionConserves | services/context/src/context_pool_impl.cpp:345-395 | a promotion neither loses nor adds a context: union and count of the two queues stay, and the running ones stay in front |
| Promotion.PromotionKeepsIdsDistinct | services/context/src/context_pool_impl.cpp:345-395 | ids unique over both queues stay unique |
| Promotion.BlockedInOrder | services/context/src/context_pool_impl.cpp:363-394 | the remaining queue is an order-preserving subsequence of the old one |
| Promotion.AdmittedInOrder | services/context/src/context_pool_impl.cpp:363-394 | those let in are lined up behind the running ones in the order in which they waited |
| Promotion.NoOvertaking | services/context/src/context_pool_impl.cpp:363-394 | a waiter that overtakes a conflicting waiter ahead of it has put that one in the stop plan |
| Promotion.PromotionStalls | services/context/src/context_pool_impl.cpp:345-395 | after a promotion nobody in the queue could be admitted under the same preempt answers |
| Promotion.PromotionIsIdempotent | services/context/src/context_pool_impl.cpp:345-395 | a second promotion with unchanged preempt answers changes neither queue |
| ContextPools.ContextPool.ListRunning | services/context/src/context_pool_impl.cpp:350-356 | lists exactly the running contexts, each once, in whatever order the hash map yields them |
| ContextPools.ContextPool.Classify | services/context/src/context_pool_impl.cpp:369-387 | for one waiter: what stays visible is everyone it does not collect, and the plan grows by exactly those it collects, by supersession or by preemption |
| ContextPools.ContextPool.Consider | services/context/src/context_pool_impl.cpp:363-388 | one turn of the loop: the plan of the first n waiters becomes that of n + 1, and the waiter can start iff the closed form admits it |
| ContextPools.ContextPool.AdmitWaiterAt | services/context/src/context_pool_impl.cpp:390-393 | moves that one waiter from its place in the queue to the running contexts |
| ContextPools.ContextPool.PromoteWaitingLocked | services/context/src/context_pool_impl.cpp:345-395 | the loop that erases while it iterates computes the closed-form promotion and its plan, for every iteration order of the hash map |
| ContextPools.ContextPool.ExecutePlan | services/context/src/context_pool_impl.cpp:397-424 | posts one stop per planned id, ascending, and then one start per admitted context, in order of admission |
| PoolOperations.AscendingListsAll | services/context/src/context_pool_impl.cpp:407-417 | the planned stops are posted once each and by ascending id |
| ContextPools.ContextPool.Schedule | services/context/src/context_pool_impl.cpp:159-181 | result, new pool and posted tasks of Schedule, for every context including none |
| ContextPools.ContextPool.Cancel | services/context/src/context_pool_impl.cpp:183-195 | records the id and posts a stop for it; nothing else changes |
| ContextPools.ContextPool.EraseFromWaiting | services/context/src/context_pool_impl.cpp:202-213 | takes out the first waiter of that id, if any |
| ContextPools.ContextPool.Delete | services/context/src/context_pool_impl.cpp:197-228 | result, new pool and posted tasks of Delete, whichever queue holds the id |
| ContextPools.ContextPool.NotifyPreemptStateChanged | services/context/src/context_pool_impl.cpp:253-262 | promotes with the current preempt answers and posts the plan |
| ContextPools.ContextPool.CancelAll | services/context/src/context_pool_impl.cpp:230-251 | requests the cancellation of exactly the contexts pooled when the call begins, and posts one stop task for each and no second one |
| ContextPools.ContextPool.Select | services/context/src/context_pool_impl.cpp:264-268 | finds the pooled context of that id iff there is one, in whichever queue |
| ContextPools.ContextPool.StopIfPooled | services/context/src/context_pool_impl.cpp:426-438 | a stop task run to its end: the request comes off the list, and Stop is called once on the pooled context of that id iff there is one, whose answer is returned |
| ContextPools.ContextPool.StartIfPooled | services/context/src/context_pool_impl.cpp:440-457 | a start task run to its end: Start is called once on the running context of that id iff there is one and its cancellation is not on the list, and a failure is reported back to it |
| ContextPools.ContextPool.SelectedIffHeld | services/context/src/context_pool_impl.cpp:459-475 | looking an id up in the map finds it iff a running context has it |
| PoolOperations.PromotionIsWellFormed | services/context/src/context_pool_impl.cpp:345-395 | every promotion restores the pool invariant: unique ids, at most 100 contexts, and each waiter conflicts with a running or earlier waiting context |
| PoolOperations.ScheduleAddsOne | services/context/src/context_pool_impl.cpp:159-181 | Schedule accepts iff there is room and the id is free, then adds that one context and keeps the invariant; refused, it changes nothing |
| PoolOperations.RemoveIdRemoves | services/context/src/context_pool_impl.cpp:197-228 | removing an id drops its one holder and nobody else |
| PoolOperations.DeleteRemovesOne | services/context/src/context_pool_impl.cpp:197-228 | Delete succeeds iff the id is pooled, then removes that one context and keeps the invariant |
| PoolOperations.OnlyPinUsersWait | services/context/src/context_pool_impl.cpp:345-395 | only primary authentications of a valid user that bear its PIN ever wait |
| PoolOperations.QueueImpliesRunner | services/context/src/context_pool_impl.cpp:345-395 | a non-empty queue implies a non-empty running set |
| PoolOperations.DeletionsDrain | services/context/src/context_pool_impl.cpp:197-228 | with no newcomers, as many deletions of running contexts as the pool holds empty it |
| PoolOperations.DrainNeverStuck | services/context/src/context_pool_impl.cpp:197-228 | until then there is always a running context to delete |
| PoolOperations.DialogDoesNotBlock | services/context/src/sudo_auth_context.cpp:229-252 | after a promotion that sees a sudo dialog, every younger waiter left conflicts with somebody other than that sudo context |
| PoolRuns.AdmittedCollects | services/context/src/context_pool_impl.cpp:363-394 | whoever a newly admitted context conflicts with is in the plan that admits it |
| PoolRuns.StepIsSound | services/context/src/context_pool_impl.cpp:159-457 | every step of callers, posts and executor keeps the pool invariant and the exclusion |
| PoolRuns.RunIsSound | services/context/src/context_pool_impl.cpp:159-457 | and so does every run |
| PoolRuns.SudoPinExclusion | services/context/src/context_pool_impl.cpp:345-395 | in every reachable state, of two running PIN users of one account of which one is a sudo request the one admitted first is in a stop plan, so among unmarked ones a sudo request is alone |
| PoolRuns.ReachablePool | services/context/src/context_pool_impl.cpp:159-262 | in every reachable state: unique ids, at most 100 contexts, nobody waits without a conflicting predecessor, only PIN users wait, and a queue has a runner |
| PoolDuties.PlanTasksListPlan | services/context/src/context_pool_impl.cpp:397-424 | the tasks of any plan: a stop per planned id, once each and ascending, and then a start per admitted context in order; none of either kind is left out when the other is missing |
| PoolDuties.PromotionTells | services/context/src/context_pool_impl.cpp:345-424 | the tasks of a promotion hold exactly one start for each context that runs now and did not before and for no other, and exactly one stop for each id of which some waiter collects a context that runs or is ahead of it |
| PoolDuties.ScheduleTells | services/context/src/context_pool_impl.cpp:159-181 | an accepted Schedule posts those tasks, a refused one none |
| PoolDuties.NewcomerIsLast | services/context/src/context_pool_impl.cpp:159-181 | the newcomer runs at once iff it conflicts with nobody pooled whom it cannot collect; it is then the last of the running ones, and otherwise the last of the queue |
| PoolDuties.DeleteTells | services/context/src/context_pool_impl.cpp:197-228 | an accepted Delete posts the tasks of the promotion that follows the removal, a refused one none |
| PoolDuties.StepsPostOutcome | services/context/src/context_pool_impl.cpp:159-262 | in the runs of the pool, Schedule, Delete and the notification leave the pool of that outcome and its tasks to post |
| PoolDuties.MarkedAreStopped | services/context/src/context_pool_impl.cpp:397-438 | in every reachable state, whoever was put in a stop plan and is still pooled was stopped, is being stopped, or has a stop task on its way |
| PoolDuties.RunningAreServed | services/context/src/context_pool_impl.cpp:397-457 | in every reachable state, for whoever was let in a start or a stop was called, is about to be, or is on its way |
| PoolDuties.AllServedWhenDrained | services/context/src/context_pool_impl.cpp:397-457 | once all tasks have run: every running context was started or stopped, all in a stop plan were stopped, and of two running ones that conflict one was stopped |
| PoolCancellation.StepKeepsDoomed | services/context/src/context_pool_impl.cpp:426-457 | every step keeps all ways to OnStart closed for a context whose cancellation was requested in time |
| PoolCancellation.CancelWins | services/context/src/context_pool_impl.cpp:183-195 | in every reachable state and for every order of tasks: cancelling a pooled context that has not started keeps OnStart from ever running iff its start task has not already passed its check of the pool |
| PoolCancellation.RequestsDrain | services/context/src/context_pool_impl.cpp:183-195 | every requested cancellation has a stop task on its way; once all are posted and begun none is left |
| PoolStarts.StepIsTidy | services/context/src/context_pool_impl.cpp:159-457 | every step keeps: requests covered by stop tasks, and only contexts that were taken in are started or stopped |
| PoolStarts.CancelledNewcomerNeverStarts | services/context/src/context_pool_impl.cpp:440-457 | a newcomer whose id is still on the cancellation list never runs OnStart |
| PoolStarts.NeverStartsTwice | services/context/src/context_pool_impl.cpp:363-457 | a context with no start task left over from an earlier holder of its id is given to a start task at most once, over every continuation |
| PoolStarts.RipeMayStartTwice | services/context/src/context_pool_impl.cpp:197-228 | a pooled context with such a task left over is started twice by some continuation |
| PoolStarts.StartedAtMostOnce | services/context/src/context_pool_impl.cpp:440-457 | in every reachable state a newcomer can be given to a start task after its Start was called iff a start task for an earlier holder of its id is on its way when it is taken in |
| PoolRestarts.GoneStaysGone | services/context/src/context_pool_impl.cpp:159-228 | a context that has left the pool does not come back |
| PoolRestarts.SettledNeverRestarts | services/context/src/context_pool_impl.cpp:363-457 | a context that is given to one start task at most, or whose cancellation was requested in time, is never called again by a start task after it started, over every continuation |
| PoolRestarts.PrimedMayRestart | services/context/src/context_pool_impl.cpp:197-228 | a pooled context with a start task left over from an earlier holder of its id, and no stop under way, is started and started again by some continuation |
| PoolRestarts.RestartsIffStale | services/context/src/context_pool_impl.cpp:426-457 | in every reachable state a newcomer with a gate of its own can be called by a second start task, without a stop in between, iff when it is taken in such a task is on its way, its id is not on the cancellation list, and no stop task for it is about to look into the pool |
| PoolOrder.PromoteIsOrderly | services/context/src/context_pool_impl.cpp:363-424 | a promotion keeps the stop of every threat to a context, one in its way or an older conflicting sudo context ahead of it in the queue, in front of every start for it, on every list of tasks |
| PoolOrder.StartsAfterStops | services/context/src/context_pool_impl.cpp:363-457 | on a first-in-first-out executor, if no start task for its id is on its way when a context is taken in, no continuation is about to start it with a conflicting context admitted before it still running and not stopped, whatever other ids are taken again |
| PoolOvertaking.WaiterIsOvertaken | services/context/src/context_pool_impl.cpp:345-457 | a waiter with an older conflicting sudo context ahead of it whose stop does not come first: some first-in-first-out run hides the dialogs, lets the others leave, shows that one dialog and starts the waiter before that context was stopped |
| PoolOvertaking.OvertakesIff | services/context/src/context_pool_impl.cpp:345-457 | in every reachable state, a context that runs or waits, with no cancellation on the list, can be started too early by some first-in-first-out continuation iff some threat to it is not stopped and some list of tasks brings a start for its id in front of every stop for that one |
| PoolOvertaking.NewcomerOvertakesIff | services/context/src/context_pool_impl.cpp:159-181 | the same in terms of the tasks on their way before a Schedule that accepts the newcomer, whether it runs at once or has to wait |
| PoolNewest.SupersedesIffYounger | services/context/src/context_pool_impl.cpp:369-383 | a newcomer marks a pooled context of its session (two widgets, or same caller, type, authentication type and user) iff it is strictly younger |
| PoolNewest.OneUnmarkedPerSession | services/context/src/context_pool_impl.cpp:61-74 | if each request is younger than the unmarked pooled ones of its own session, at most one widget and one primary request per session is not marked for stop, in every reachable state |
| PoolNewest.EqualTimesKeepBoth | services/context/src/context_pool_impl.cpp:373-380 | any two widgets created at the same instant both run and neither is marked |
| PoolNewest.StaleStartOvertakesStop | services/context/src/context_pool_impl.cpp:440-457 | the failing case happens: an id taken again while a start for its former holder is queued lets that start reach the new holder before the context it displaces was stopped, even first-in-first-out |
| WidgetContexts.WidgetContext.AdvancePhaseLocked | services/context/src/widget_context.cpp:112-123 | the phase moves iff the next one is later |
| WidgetContexts.WidgetContext.Start | services/context/src/widget_context.cpp:125-148 | the answer of a start and the state it leaves, in every phase |
| WidgetContexts.WidgetContext.OnStartFailed | services/context/src/widget_context.cpp:150-159 | reports the code and releases, unless a result was delivered before |
| WidgetContexts.WidgetContext.Stop | services/context/src/widget_context.cpp:161-177 | before the start: seat taken, CANCELED, released; otherwise ends with CANCELED |
| WidgetContexts.WidgetContext.BuildTask | services/context/src/widget_context.cpp:298-350 | a child that cannot be built or scheduled has reported its end by the time the call returns |
| WidgetContexts.WidgetContext.OnChildAuthResult | services/context/src/widget_context.cpp:412-436 | a report is processed unless released, and always counts the child as gone |
| WidgetContexts.WidgetContext.ExecuteAuthList | services/context/src/widget_context.cpp:513-540 | the launch loop, failures inside it included, as the launches one by one; nothing once stopping |
| WidgetContexts.WidgetContext.HandleAuthSuccessResult | services/context/src/widget_context.cpp:880-916 | if an attribute cannot be set it delivers GENERAL_ERROR itself |
| WidgetContexts.WidgetContext.End | services/context/src/widget_context.cpp:918-934 | the first call before stopping cancels the children, delivers one result and arms the timer; later ones change nothing |
| WidgetContexts.WidgetContext.DeliverEndLocked | services/context/src/widget_context.cpp:936-958 | one result and an armed timer on either way out |
| WidgetContexts.WidgetContext.OnChildTerminated | services/context/src/widget_context.cpp:973-983 | one child fewer, never below zero, and a try at release when none is left |
| WidgetContexts.WidgetContext.TryEndLocked | services/context/src/widget_context.cpp:985-998 | releases only after the schedule is released, and waits on the timer while children are out and no result is delivered |
| WidgetContexts.WidgetContext.StopAllRunTask | services/context/src/widget_context.cpp:1000-1014 | asks the pool to cancel every launched child, in order, and forgets them |
| WidgetContexts.WidgetContext.ProcAuthResult | services/context/src/widget_context.cpp:1225-1268 | what a child result does to the stored result (token, credential digest and count, type, user) and to the latest error, and what schedule and caller are told, in every case |
| WidgetContexts.WidgetContext.OnScheduleAuthResult | services/context/src/widget_context.cpp:1184-1204 | an answer of the schedule is stored and ends the session with its code, or with the error of the enrolled-state query |
| WidgetContexts.WidgetContext.StartOnTerminateTimer | services/context/src/widget_context.cpp:1298-1318 | the timer is armed afterwards, an armed one is kept |
| WidgetContexts.WidgetContext.OnTerminateTimerTimeOut | services/context/src/widget_context.cpp:1333-1344 | forgets the children and releases |
| WidgetContexts.WidgetContext.EndLocked | services/context/src/widget_context.cpp:1346-1362 | enters RELEASED once, with CANCELED if no result was delivered, and asks for one pool deletion |
| WidgetContexts.WidgetContext.ClearSchedule | services/context/src/widget_context.cpp:1364-1373 | records the release of the schedule and tries to release the context |
| WidgetLifecycle.LaunchingKeepsPhase | services/context/src/widget_context.cpp:513-540 | launching never moves the phase, and adds exactly the children still to report |
| WidgetLifecycle.StepIsSound | services/context/src/widget_context.cpp:112-177 | every critical section, in any interleaving, keeps one result, one deletion, the armed timer and the child count |
| WidgetLifecycle.ExactlyOneResult | services/context/src/widget_context.cpp:936-998 | in every reachable state one result has been delivered iff the phase is RESULT_DELIVERED or RELEASED, none otherwise, and one deletion issued iff RELEASED |
| WidgetLifecycle.RunMovesForward | services/context/src/widget_context.cpp:112-123 | over any run the phase never goes back and a delivered result is the only one ever |
| WidgetLifecycle.FirstEndFixesOutcome | services/context/src/widget_context.cpp:918-958 | the first End before stopping decides the only result, whatever follows: its code, or GENERAL_ERROR if a success or a token was to be attached and could not be |
| WidgetLifecycle.StopTakesSeat | services/context/src/widget_context.cpp:161-177 | a stop that finds the context not started takes its seat, with the second section still to come |
| WidgetLifecycle.StopBeforeStart | services/context/src/widget_context.cpp:125-177 | once the seat is taken, OnStart never runs and CANCELED is the only possible result, whoever gets in between the two sections of Stop; the second section delivers it at the latest |
| WidgetLifecycle.NeverLeaks | services/context/src/widget_context.cpp:985-1344 | a context that waits for cleanup has its timer armed, one in STOPPING has a stop under way that releases it, and the timeout releases any context with one result and one deletion |
| WidgetLifecycle.CountsChildren | services/context/src/widget_context.cpp:513-540 | until release the counter is children launched minus children reported |
| WidgetLifecycle.ReleasesOnlyWhenChildless | services/context/src/widget_context.cpp:973-998 | a release that has to make up CANCELED itself happens only on timeout or with the schedule released and no child outstanding |
| WidgetLifecycle.StartLeadsTo | services/context/src/widget_context.cpp:125-148 | the first start goes on to OnStart, one during the session is a failure to report, and one after a stop or an end changes nothing |
| WidgetLifecycle.FailureLeadsTo | services/context/src/widget_context.cpp:150-159 | a reported failure releases a context without result with that code, and changes nothing in one with a result |
| WidgetLifecycle.ReleasedWhenDone | services/context/src/widget_context.cpp:985-998 | with its schedule gone a context is released iff it has a result, and stays only while a child is out |
| WidgetResults.AnswerFixesOutcome | services/context/src/widget_context.cpp:1184-1204 | an answer of the schedule before stopping decides the only result: its error, the error of the enrolled-state query, or SUCCESS; GENERAL_ERROR if the attributes fail |
| WidgetResults.AnswerIsStored | services/context/src/widget_context.cpp:1184-1204 | a successful answer leaves its token, type and user, and with the enrolled state the count and the lower 16 bits of the digest |
| WidgetResults.EndCancelsChildren | services/context/src/widget_context.cpp:1000-1014 | whatever the run, the call that ends the session cancels exactly the children launched so far, once each and in order; none was cancelled before and none is launched after |
| WidgetResults.ResultHasCause | services/context/src/widget_context.cpp:936-998 | every result of every life has a step that gives reason for that code |
| WidgetResults.SuccessIsEarned | services/context/src/widget_context.cpp:918-958 | SUCCESS is delivered only after an End with it, an answer of the schedule that the enrolled state bears out, both with their attributes set, or a failed start reported with it |
| WidgetResults.LatestErrorIsError | services/context/src/widget_context.cpp:125-148 | the latest error, which failed starts are reported with, is never SUCCESS |
| WidgetResults.TokensAreEarned | services/context/src/widget_context.cpp:1225-1268 | over every life, a token comes from a child that passed or a success of the schedule, and only factors that passed are reported as passed |
| WidgetResults.ReportTells | services/context/src/widget_context.cpp:1225-1268 | exactly when each notice goes to schedule or caller on the result of a child |
| WidgetResults.ReportTellsInOrder | services/context/src/widget_context.cpp:1225-1268 | one or two notices, a tip first, the release of the schedule last |
| WidgetResults.TipIsFor | services/context/src/widget_context.cpp:1206-1223 | the tip code for each error and freezing time |
| WidgetResults.ReportIsStored | services/context/src/widget_context.cpp:1225-1268 | a factor that passed leaves type, user and what it attached; a failed one leaves its code as the latest error, or LOCKED if it is frozen and the only one |
| SudoAuthContexts.BaseContext.Start | services/context/src/base_context.cpp:103-121 | the gate of a start: refused after a start, refused with CANCELED after a stop |
| SudoAuthContexts.BaseContext.Stop | services/context/src/base_context.cpp:140-161 | the gate of a stop: before the start, repeated, or on to OnStop |
| SudoAuthContexts.BaseContext.OnStartFailed | services/context/src/base_context.cpp:123-138 | a failure is told to the caller at most once |
| SudoAuthContexts.SudoAuthContext.OnStart | services/context/src/sudo_auth_context.cpp:149-169 | what each answer of the credential query leads to |
| SudoAuthContexts.SudoAuthContext.DispatchByProfile | services/context/src/sudo_auth_context.cpp:183-205 | frozen, last attempt or silent child, and the error if the child does not start; nothing once past the query |
| SudoAuthContexts.SudoAuthContext.StartSilentChild | services/context/src/sudo_auth_context.cpp:207-227 | the pool is asked for the child when child id and phase are already set |
| SudoAuthContexts.SudoAuthContext.StartWidgetChild | services/context/src/sudo_auth_context.cpp:229-252 | the flag goes up, then the pool is told, and only then, with child id and phase set, it is asked for the child |
| SudoAuthContexts.SudoAuthContext.OnChildResult | services/context/src/sudo_auth_context.cpp:265-290 | the result a child report leads to, in every phase |
| SudoAuthContexts.SudoAuthContext.OnStop | services/context/src/sudo_auth_context.cpp:292-309 | cancels a live child, ends with CANCELED otherwise |
| SudoAuthContexts.SudoAuthContext.EndWithResult | services/context/src/sudo_auth_context.cpp:316-330 | ends once, with dialog flag and child id reset |
| SudoAuthContexts.SudoAuthContext.HandOver | services/context/src/context_callback_impl.cpp:127-157 | the callback gives the result to the caller and then has the context deleted from the pool |
| SudoAuthContexts.SudoAuthContext.Stop | services/context/src/base_context.cpp:140-161 | gate, early-stop report and OnStop of the sudo context taken together |
| SudoLifecycle.StepResults | services/context/src/sudo_auth_context.cpp:149-330 | every critical section decides as many results as it takes of the two ways to an end, and after an early stop only CANCELED |
| SudoLifecycle.RunIsSound | services/context/src/sudo_auth_context.cpp:149-330 | over any interleaving without a start of a started context: at most one decided result, never revised, with gate, child id and dialog flag consistent |
| SudoLifecycle.ExactlyOneResult | services/context/src/sudo_auth_context.cpp:316-330 | over every life at most one result is decided, one iff the context has ended or its early stop was reported, and it is never revised; starts after an early stop included |
| SudoLifecycle.LeavesPoolWithResult | services/context/src/context_callback_impl.cpp:127-157 | one pool deletion, issued with the result and never before it |
| SudoLifecycle.StopsDecide | services/context/src/sudo_auth_context.cpp:292-309 | a stop before the start or during the query decides CANCELED; with a live child it cancels exactly that child, and its report then decides CANCELED |
| SudoLifecycle.ChildReportDecides | services/context/src/sudo_auth_context.cpp:265-290 | without a stop the report of the child is the result, except that a failed widget child whose factor is frozen makes it LOCKED |
| SudoLifecycle.QueryDecides | services/context/src/sudo_auth_context.cpp:149-252 | each answer of the query ends the context with one error, or leaves one running child, with a dialog iff a single attempt is left |
| SudoLifecycle.LateQueryIsIgnored | services/context/src/sudo_auth_context.cpp:183-189 | an answer that comes after the query phase changes nothing |
| SudoLifecycle.StartLeadsTo | services/context/src/base_context.cpp:103-121 | a start goes on to the query iff it is the first and no stop came before; otherwise it is a failure to report, CANCELED after a stop |
| SudoLifecycle.StopLeadsTo | services/context/src/base_context.cpp:140-161 | a first stop before the start refuses it and tells the caller CANCELED, a second one changes nothing, one after the start goes on to OnStop |
| SudoLifecycle.SomebodyDecides | services/context/src/sudo_auth_context.cpp:149-330 | a context that was started or stopped and has no result has a query out, a live child, or the report of its early stop to come |
| SudoResults.ResultHasCause | services/context/src/sudo_auth_context.cpp:149-330 | every result of every life, restarts included, is what a child reported, LOCKED for a frozen factor, an error of query or launch, CANCELED after a stop, or the error of a start after another start |
| SudoResults.SuccessIsEarned | services/context/src/sudo_auth_context.cpp:265-290 | the caller gets SUCCESS only if the child has reported it, restarts included |
| SudoLifecycle.StopOfLiveChild | services/context/src/sudo_auth_context.cpp:292-309 | a stop that finds a live child commits the context to CANCELED |
| SudoLifecycle.StoppedChildIsCanceled | services/context/src/sudo_auth_context.cpp:265-309 | from then on the only possible result is CANCELED, whatever the child reports |
| SudoLifecycle.ChildAndDialog | services/context/src/sudo_auth_context.cpp:183-263 | at step boundaries the child id is set iff the phase is RUN, the dialog flag iff a widget child runs, and the pool was asked for at most one child, after it was told of the dialog if there is one |
| SudoLifecycle.RestartAddsResult | services/context/src/base_context.cpp:103-138 | a start of a started context is reported as one more result, GENERAL_ERROR |
| SudoLifecycle.TwoResultsIffRestarted | services/context/src/base_context.cpp:103-161 | in every reachable state a start makes a second result possible iff the context has started before |
| SudoInPool.RunJoins | services/context/src/context_pool_impl.cpp:397-457 | every run of pool and sudo context together keeps: given to one start task at most or never started, one result, the gate agreeing with what the runs say of start and stop, and out of the pool once the result is handed over |
| SudoInPool.PoolGivesOneResult | services/context/src/context_pool_impl.cpp:426-457 | a sudo context driven by the Start and Stop calls of the pool, taken in without a stale start that can reach it: in every run at most one result, out of the pool once it is handed over, and its gate says of start and stop what the runs say |
| SudoInPool.TwoResultsIffStale | services/context/src/context_pool_impl.cpp:426-457 | a sudo context that the pool takes in can give its caller two results iff a start task for an earlier holder of its id is on its way, its id is not on the cancellation list, and no stop task for it is about to look into the pool |
| SudoInPool.StopReachesContext | services/context/src/context_pool_impl.cpp:426-438 | a stop task that has found a started sudo context gets through to its OnStop |
| SudoInPool.StopCancelsChild | services/context/src/sudo_auth_context.cpp:292-309 | which has the pool cancel exactly the live child, and post its stop |
| WidgetInPool.AskingKeepsPool | services/context/src/widget_context.cpp:1000-1014 | what a widget context asks of the pool calls nobody and keeps what the runs of the pool keep, and its deletion takes it out |
| WidgetInPool.RunJoins | services/context/src/widget_context.cpp:112-177 | every run of pool and widget context together keeps: the invariant of the context, a running session was started, one started or refused is past its start, and out of the pool once it asked to be deleted |
| WidgetInPool.PoolGivesOneResult | services/context/src/widget_context.cpp:936-998 | however the pool calls a widget context, stale starts included: one result iff the phase is RESULT_DELIVERED or RELEASED, none otherwise, and out of the pool once released |
| WidgetInPool.BreakingInEnds | services/context/src/widget_context.cpp:125-159 | a start of a running session fails, and once that is reported back the session is released with that error as its result and out of the pool |
| WidgetInPool.BreaksInIffStale | services/context/src/context_pool_impl.cpp:440-457 | that can happen to a widget context the pool takes in iff a start task for an earlier holder of its id is on its way, its id is not on the cancellation list, and no stop task for it is about to look into the pool |
| WidgetInPool.StopEndsSession | services/context/src/widget_context.cpp:161-177 | a stop task that has found a running session ends it with CANCELED, or GENERAL_ERROR if a token could not be attached, and has the pool cancel each of its children |
| PackedKeys.ShiftOrIsSum | services/base/src/finite_state_machine_impl.h:60-64 | on machine words, shifting the state up and or-ing the event in is the sum used below |
| PackedKeys.TransitionIndexIsInjective | services/base/src/finite_state_machine_impl.h:60-64 | two packed keys are equal iff state and event are |
| StateMachines.FiniteStateMachine.Schedule | services/base/src/finite_state_machine_impl.cpp:52-79 | queues the event and posts one task |
| StateMachines.FiniteStateMachine.DealWithStateLeaveAndEnter | services/base/src/finite_state_machine_impl.cpp:115-132 | nothing on the same state, otherwise leave and then enter, and their pushes queued in that order |
| StateMachines.FiniteStateMachine.ReactToNext | services/base/src/finite_state_machine_impl.cpp:85-107 | takes the first event, reacts to it, and queues what the callbacks push behind the rest |
| StateMachines.PushedByOneMore | services/base/src/finite_state_machine_impl.cpp:85-132 | a moment pushes what its callback pushes, and nothing if it invokes none |
| StateMachines.FiniteStateMachine.ScheduleInner | services/base/src/finite_state_machine_impl.cpp:81-113 | one task pops at most 100 events; state and trace are the fold over them, popped plus pending is what was pending plus what was pushed, and the queue ends empty iff those are at most 100 |
| StateMachineRuns.PartsMakeReaction | services/base/src/finite_state_machine_impl.cpp:91-132 | transition action, store of the new state, leave and enter, taken one by one, are one reaction |
| StateMachineRuns.RunIsFold | services/base/src/finite_state_machine_impl.cpp:52-132 | in every run, however tasks batch the events, whatever callbacks push and whoever pushes between and inside reactions: with the rest of the reaction under way, state and trace are the fold over the popped events, which come in the order they were queued, and what callbacks queued is what the trace made them push |
| StateMachineRuns.LeavesMatchEnters | services/base/src/finite_state_machine_impl.cpp:115-132 | in every run, with the reaction under way completed, each leave names the state entered last, or the initial one, and is followed at once by the enter of a different state |
| StateMachineRuns.NoEventForgotten | services/base/src/finite_state_machine_impl.cpp:52-113 | with a live owner and callbacks that push nothing, pending events never outnumber the tasks on their way, and all are taken when the tasks are done |
| StateMachineRuns.StrandsIff | services/base/src/finite_state_machine_impl.cpp:52-113 | at any moment of any run with a live owner and any callbacks, a step leaves an event with no task to take it iff it ends a task that had more than 100 events to take, with no other task posted or about to be |
| StateMachineRuns.StrandedUntilPush | services/base/src/finite_state_machine_impl.cpp:52-79 | an event left behind stays so until somebody pushes another one, unless the owner dies |
| StateMachineRuns.PushingCallbacksStrandEvents | services/base/src/finite_state_machine_impl.cpp:81-113 | that happens: a machine that answers every event with another one leaves one pending with no task to take it |
| StateMachineBuilders.FirstClashIff | services/base/src/finite_state_machine_builder.cpp:42-80 | an earlier request for the same pair is found iff there is one |
| StateMachineBuilders.EmplacedAnswers | services/base/src/finite_state_machine_builder.cpp:42-80 | the packed table keeps answering every state and event as the first request for it says, and so do the enter and leave tables |
| StateMachineBuilders.OneMoreRequest | services/base/src/finite_state_machine_builder.cpp:42-80 | a request fails to enter the tables iff it duplicates an earlier one |
| StateMachineBuilders.FirstClashIsFirst | services/base/src/finite_state_machine_builder.cpp:42-80 | the request found is the first one for its pair |
| StateMachineBuilders.ReactResponds | services/base/src/finite_state_machine_impl.cpp:91-132 | with a table that answers the requests, an event leads to the state of the first request for state and event, with its action, and then leaving and entering as first requested if the state changes; without a request nothing happens |
| StateMachineBuilders.ResponseIsUnique | services/base/src/finite_state_machine_impl.cpp:91-132 | the requests allow one such response only |
| StateMachineBuilders.FiniteStateMachineBuilder.MakeTransition | services/base/src/finite_state_machine_builder.cpp:42-58 | records the transition; a duplicate invalidates the builder |
| StateMachineBuilders.FiniteStateMachineBuilder.MakeOnStateEnter | services/base/src/finite_state_machine_builder.cpp:60-69 | likewise for an enter action |
| StateMachineBuilders.FiniteStateMachineBuilder.MakeOnStateLeave | services/base/src/finite_state_machine_builder.cpp:71-80 | likewise for a leave action |
| StateMachineBuilders.FiniteStateMachineBuilder.Build | services/base/src/finite_state_machine_builder.cpp:82-90 | gives a machine iff it is the first successful build and no request was a duplicate; the machine responds to every event in every state as requested and is in the initial state |
| StateMachineRequests.FoldFollows | services/base/src/finite_state_machine_impl.cpp:81-132 | the events taken one at a time lead along a path each step of which is the response asked for |
| StateMachineRequests.PathIsUnique | services/base/src/finite_state_machine_impl.cpp:81-132 | there is one such path from a given place |
| StateMachineRequests.RunFollowsRequests | services/base/src/finite_state_machine_impl.cpp:52-132 | in every run, whatever callbacks and others push, the machine is between reactions where the path along the popped events leads |
| ThreadHandlers.ThreadHandlerImpl.PostTask | services/base/src/thread_handler_impl.cpp:48-65 | a suspended handler drops the task, any other queues it |
| ThreadHandlers.ThreadHandlerImpl.Suspend | services/base/src/thread_handler_impl.cpp:79-87 | only a handler that can be suspended is |
| ThreadHandlers.ThreadHandlerManager.constructor | services/base/src/thread_handler_manager.cpp:32-36 | begins with the singleton alone |
| ThreadHandlers.ThreadHandlerManager.CreateThreadHandler | services/base/src/thread_handler_manager.cpp:44-56 | registers a fresh, empty handler iff the name is free |
| ThreadHandlers.ThreadHandlerManager.DestroyThreadHandler | services/base/src/thread_handler_manager.cpp:58-85 | queues the deletion request behind everything accepted and closes the queue; a closed one takes no second request; the singleton and other names are untouched |
| ThreadHandlers.ThreadHandlerManager.DeleteThreadHandler | services/base/src/thread_handler_manager.cpp:87-102 | forgets the name, except the singleton |
| ThreadHandlers.ThreadHandlerManager.PostTask | services/base/src/thread_handler_manager.cpp:114-124 | queues the task on the handler of that name and nowhere else |
| ThreadHandlers.ThreadHandlerManager.PostTaskOnTemporaryThread | services/base/src/thread_handler_manager.cpp:126-135 | the thread is named after the next serial; a new name gets a handler that holds the task and then its own deletion request; the handler that has a taken name gets both behind what it holds, unless closed; either is closed afterwards |
| ThreadHandlers.TemporaryNamesDiffer | services/base/src/thread_handler_manager.cpp:129-131 | two temporary threads share a name only if given name and serial, a 32-bit number, both agree |
| ThreadHandlerRuns.StepIsSound | services/base/src/thread_handler_manager.cpp:44-124 | every step of manager, workers and singleton keeps the books: one request if destroyed, one deletion if that request has run, and the registered instances are those not erased |
| ThreadHandlerRuns.AtMostOneDeletion | services/base/src/thread_handler_manager.cpp:58-85 | however often it is destroyed, an instance takes at most one deletion request and causes at most one deletion |
| ThreadHandlerRuns.DeletesItsOwnHandler | services/base/src/thread_handler_manager.cpp:58-102 | a deletion knows only a name, yet always erases the instance whose destruction caused it, never a later one under that name |
| ThreadHandlerRuns.TasksRunBeforeErasure | services/base/src/thread_handler_manager.cpp:58-102 | everything an instance accepted before it was first destroyed has run when it is erased |
| RemoteMessages.SetExecutorInfoToAttributes | services/core/src/remote_msg_util.cpp:75-100 | all seven fields can be read back |
| RemoteMessages.SetExecutorInfoArrayToAttributes | services/core/src/remote_msg_util.cpp:137-155 | one item per executor, in order, under one key; other keys untouched |
| RemoteMessages.EncodeQueryExecutorInfoReply | services/core/src/remote_msg_util.cpp:53-63 | succeeds iff there is an executor to offer |
| RemoteMessages.EncodeAuthParam | services/core/src/remote_msg_util.cpp:223-237 | the four parameters can be read back; other keys untouched |
| RemoteMessages.GetQueryExecutorInfoReply | services/core/src/remote_msg_util.cpp:177-221 | any number of types but one is refused as INVALID_PARAMETERS, which engine errors pass through and which become GENERAL_ERROR; on success exactly the local executors of that type and role are written |
| RemoteMessages.OfferedInOrder | services/core/src/remote_msg_util.cpp:190-212 | offered are the registered executors of that type, role and this device, each once, in order, with those fields |
| RemoteMessages.QueryResultIs | services/core/src/remote_msg_util.cpp:177-221 | the query succeeds iff there is one type, the engine succeeds and such an executor exists; which errors it gives otherwise |
| RemoteMessages.KeysDoNotClash | services/context/src/remote_auth_invoker_context.cpp:258-265 | no key of the start message overwrites another one |
| RemoteMessages.SendRequest | services/context/src/remote_auth_invoker_context.cpp:238-265 | a message iff the query succeeds, holding request and executors; otherwise the error the invoker keeps |
| RemoteMessages.GetExecutorInfoArrayFromAttributes | services/core/src/remote_msg_util.cpp:102-175 | decodes item by item and fails as a whole if one item fails |
| RemoteMessages.FailsAsAWhole | services/core/src/remote_msg_util.cpp:157-175 | one undecodable item fails the whole list |
| RemoteMessages.DecodeQueryExecutorInfoReply | services/core/src/remote_msg_util.cpp:65-73 | needs the signed information and then the list |
| RemoteMessages.DecodeAuthParam | services/core/src/remote_msg_util.cpp:239-258 | decodes iff all four parameters are there |
| RemoteMessages.ProcStartRemoteAuthRequest | services/context/src/remote_auth_service.cpp:200-241 | decodes the request, with the active user in place of no user, and fails iff nothing it could be read as exists |
| RemoteMessages.ExecutorsRoundTrip | services/core/src/remote_msg_util.cpp:137-175 | any encoded list decodes to the same executors in order, without template ACL and with the signed information |
| RemoteMessages.ReceivedAre | services/core/src/remote_msg_util.cpp:102-135 | field by field, what arrives of each executor |
| RemoteMessages.RoundTrip | services/context/src/remote_auth_invoker_context.cpp:238-265 | what one side sends the other reads: same user (or the active user for none), challenge, type, trust level, caller, token, network id and executors |
| Utf8Count.GetUtf8CharCount | frameworks/common/src/user_auth_helper.cpp:115-145 | terminates on any bytes, with a count between a quarter of their number, rounded up, and their number |
| Utf8Count.CountIsBounded | frameworks/common/src/user_auth_helper.cpp:115-145 | that bound from any starting place |
| Utf8Count.StrideIsLength | frameworks/common/src/user_auth_helper.cpp:132-141 | the first byte of the UTF-8 encoding of a code point (section 3 of RFC 3629) moves the counter by the length of the encoding |
| Utf8Count.CountsCodePoints | frameworks/common/src/user_auth_helper.cpp:115-145 | the count of an encoded code-point sequence is its length |

## Left out

- OvertakesIff: speaks of a context whose cancellation is not on the list. One whose cancellation is on the list when
  it is taken in never runs OnStart (CancelledNewcomerNeverStarts), and one cancelled later does so only if its start
  task has passed its check (CancelWins).
- TwoResultsIffStale: drives a sudo context; that the pool calls any other context with the gate of the base class in
  the same way is not stated again.
- CountsChildren: children are counted without bound, where the source counts in 32 bits.
- Calls that make the widget end (a cancelled, failed or navigated session, account and screen events) are arbitrary
  `End` steps, application-state changes and death recipients arbitrary `Cancel` and `CancelAll` calls.
- Widget user interface: extension connection, modal callbacks, JSON commands, rotation, tips, face-algorithm
  commands.
- The trusted engine, resource nodes, credential queries and the device manager: their answers are arbitrary inputs.
- The concrete transition tables of the schedule nodes: only the generic machine is modelled.
- The byte layout of `Attributes`, and setters that fail: a table from keys to typed values stands for it, except that
  a widget result whose attributes cannot be set is covered.
- Sending the remote message, connections, sockets and the reply to it; enum casts of decoded numbers keep the number.
- Random generation of ids: ids are arbitrary, and `Schedule` rejects one in use.
- `ThreadHandlerManager::Stop`, handlers taken down by a direct call of `DeleteThreadHandler`, `EnsureTask`, and the
  monitor task queued behind each task.
- Setting another thread handler or owner on a machine after events were scheduled.
- The holders of pointers to a context, and the freeing of its memory.
- Branches for null callbacks, contexts and handlers; tracing, logging, timing marks, fault reports.
- The pool queries `Select` by type, `SelectAll` and the lookup of schedule nodes, which only read.

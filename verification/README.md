# Verified model of the SCP-firmware core

SCP-firmware is a single-threaded, event-driven firmware. This project models its hardest
components and proves what each of them is for.

- The clock tree (`ClockTree`, `ClockTreeSafety`, `ClockTreeRuns`, `ClockTreeHangs`,
  `ClockTreeRefusals`, `ClockModule`, over `Forest`): clocks that start and stop each other by queued
  events, as a step system. The invariant accounts for every reference count, including the one
  reference that travels with an event. It gives safety in every state of every run, linear traffic,
  and exactly when a start is answered, when it succeeds and when it is all or nothing.
- Rate propagation down that tree (`ClockRate`).
- Asynchronous clock requests and power-domain pre-transitions, over runs of the event engine
  (`DelayedResponses`, `ClockRequests`, `ClockPower`, and the fields themselves in `ClockDevice`);
  `ClockSetState` joins the tree and the requests, from the call to the response.
- The event engine (`Events`, `EventLife`, `Framework`) and the subscription table (`Notifications`).
- The intrusive lists on the heap (`Lists`).
- The ring buffer and the buffered log (`Ring`, `Log`).
- The address translation unit and its window cache (`Atu`, `AtuMmio`).
- Rate selection (`Ccsm`).

Code that updates state in place is modelled by classes (`Clocks`, `Propagation`, `Device`,
`PowerNotifications`, `Context`, `Registry`, `Ring`, `Logger`, `Mmio`) or by methods on nodes; each
method is proved to be a function of the old state, and the laws are lemmas about those functions
and about whole runs.

## Hypotheses

- Clock tree: the parent relation is acyclic. Drivers are synchronous and `get_state`, when it
  succeeds, is truthful. A failed start leaves the clock as it was, and a stop does not fail, nor
  does its query (what one event does otherwise is in `ClockTreeSafety`, from `UnqueriedStop` to
  `UnsupportedStop`); a start may be refused by a failing query or by its driver. That no refusal says
  "not supported" and no query "pending" is assumed only up to `ClockTreeHangs`, which shows what
  happens otherwise. Requesters stop only what they started and are not clocks themselves. A request
  begins only when no pre-request event is in flight. The counts stay below 2^32. The event pool is
  large enough for the events of the tree. At boot a running clock's parent runs; apart from that
  any clock may run at boot.
- Rates: the event pool is large enough for the rate events, whose put is not checked by the code.
- Events: identifiers are valid indices. Claims about cookies cover standard events below the
  wrap of the 32-bit counter. Handlers and interrupt routines are arbitrary sequences of posts and
  notifications.
- Requests and pre-transitions follow one clock; everything else in the system is arbitrary, except
  that handlers only fill in parameters and the delay of their response, that nobody else sends the
  events of the followed protocol or releases its delayed response, that light events do not ask
  that clock for a response, and that a free event structure is there for the events of the protocol.
- Requests: the driver completes each pending request exactly once, from an interrupt at any time
  after it answered "pending", or from a handler after the call has queued its request. The
  requester is not the clock itself.
- The call and the tree together (`ClockSetState`): the hypotheses of both; the completion is not
  assumed but given by the tree. The pre-request events have a queue of their own, interleaved at
  will with the other events.
- Pre-transitions: the power domain asks for a response, every notified subscriber's response goes
  through the framework, and the next pre-transition comes when the last one has been answered. The
  power domain module sees to that: it waits for all responses before it sends the next one
  (module/power_domain/src/power_domain_notifications.c:215-222). `ClockPower.OverlapLoses` shows
  what happens with an emitter that does not.
- Log: a text and its terminator fit the length byte, as the comment at
  framework/src/fwk_log.c:72-76 demands. The text of the drop report and the answers of the stream
  are parameters.
- ATU: at most 32 slots and pages of 4, 8 or 16 KiB, as the registers allow; `size_t` has 32 bits.
  The attribute check is a parameter.
- ATU window: its size is a power of two and a multiple of the page. When the module starts, a
  slot is free and no enabled slot covers an address of the window; that every later remap
  succeeds, and that the hardware reaches memory through the window's slot alone, is then proved.
- Rate selection: the step is positive, and narrowing to `int` keeps the low 32 bits.

## Where the code does less than one would expect

- A driver that refuses a start with "not supported", or answers it or its query with "pending",
  leaves the requester without an answer, once debug assertions are compiled out; the clocks that
  wait then wait for ever (`ClockTreeHangs.AnsweredIff`, `ClockTreeHangs.JammedForever`).
- A refused start stops a clock that was left running at boot without a reference, if that is the
  nearest running ancestor: the start gives it its first reference and takes it back
  (`ClockTreeRefusals.RootLost`). A start is all or nothing, whatever the drivers answer, exactly
  when this is not so (`ClockTreeRefusals.HarmlessIff`).
- A pre-transition that reaches a clock before the previous one is answered takes over its counter
  and cookie, and the previous one is never answered (`ClockPower.OverlapLoses`,
  `ClockPower.LostForever`); if its notification is not valid the previous one goes on, but a veto
  collected so far is forgotten. The power domain module never sends one so early.
- The overlap test of the ATU looks at the start of the new region only (`Atu.DisjointIff`), an add
  does not check the owner (`Atu.OwnerIff`, `Atu.OwnerlessAdded`), and an empty region at address zero covers the whole
  logical space (`Atu.CoverageIff`).
- The window check of the MMIO module wraps at the top of the 64-bit space
  (`AtuMmio.TranslationIff`).
- The product of the fallback percentage wraps in 64 bits (`Ccsm.PercentageIff`).
- Rounding up and to nearest wrap in 64 bits (`Ccsm.UpIff`, `Ccsm.NearestIff`, `Ccsm.NearestWraps`), and the comparator
  is right only within 2^31 (`Ccsm.ComparatorIff`).
- A failing child driver ends the rate event, so its later siblings keep their old rate
  (`ClockRate.CompleteIffHealthy`).

## Model

| member | source | states |
|---|---|---|
| `ClockModule.Clocks.ConnectTree` | module/clock/src/clock_tree_management.c:315-355 | children lists hold exactly the children in table order; every count becomes the number of children whose driver reports running; succeeds exactly when every driver of a clock with a parent reports, and otherwise returns the first failure |
| `ClockModule.Clocks.CompleteResponse` | module/clock/src/clock_tree_management.c:58-93 | ends the transition and answers the calling clock, the requester, or nobody; refines the protocol step `Respond` |
| `ClockModule.Clocks.CompleteTransition` | module/clock/src/clock_tree_management.c:95-112 | only a driver success changes the clock; a pending driver is reported as unsupported |
| `ClockModule.Clocks.ProcessState` | module/clock/src/clock_tree_management.c:114-272 | processing the event at the head of the queue is exactly the step `Deliver`, about which the lemmas below are proved |
| `ClockModule.Clocks.ProcessIdle` | module/clock/src/clock_tree_management.c:127-147 | the idle clock records its caller, and a failing or pending driver query ends or suspends the event |
| `ClockModule.Clocks.ProcessRun` | module/clock/src/clock_tree_management.c:148-176 | an idle clock asked to run: already running, root, or passing the request up |
| `ClockModule.Clocks.ProcessHalt` | module/clock/src/clock_tree_management.c:178-212 | an idle clock asked to stop: one reference less, and a cascade to the parent with the last one |
| `ClockModule.Clocks.ProcessWaiting` | module/clock/src/clock_tree_management.c:221-265 | a waiting clock hears from its parent (or refuses a stranger with BUSY), switches on or rolls back |
| `ClockModule.Clocks.SetState` | module/clock/src/mod_clock.c:356-412 | BUSY while a request is in progress or the clock waits. A single-node clock goes straight to its driver: on success it runs exactly if that was asked for, otherwise nothing changes, and in both cases nothing else does; a pending driver makes an asynchronous request. In the tree the clock becomes the initiator and one event asks it for the state; the first put that fails changes nothing, the second one leaves the request open |
| `ClockModule.ChildrenAre` | module/clock/src/clock_tree_management.c:315-355 | the children list of a clock has every child, nothing else, and no repetition |
| `ClockModule.NoChildren` | module/clock/src/clock_tree_management.c:308-312 | the list is empty exactly for a clock without children |
| `ClockModule.ConnectedIsBooted` | module/clock/src/clock_tree_management.c:315-355 | a connected tree whose running clocks have running parents is a starting state of the run theorems |
| `ClockTreeSafety.StepKeeps` | module/clock/src/clock_tree_management.c:114-272 | every event, whether the driver obeys, refuses or cannot be queried, keeps the invariant: each count is outstanding starts + running children + the one reference in flight, the waiting clocks are one path, the events in flight are those of one phase, and a phase that owes a completion gives at most one |
| `ClockTreeSafety.RequestKeeps` | module/clock/src/mod_clock.c:356-412 | a permitted request, tree or single-node, keeps the invariant |
| `ClockTreeSafety.ClimbKeeps` | module/clock/src/clock_tree_management.c:127-176 | a request on its way up: the clock runs already, switches on, passes it on, or refuses because its driver or its query fails |
| `ClockTreeSafety.GainKeeps` | module/clock/src/clock_tree_management.c:148-176 | a clock that gains a reference passes the credit to the waiting path below it |
| `ClockTreeSafety.GrantKeeps` | module/clock/src/clock_tree_management.c:221-265 | a waiting clock told of its parent's success switches on, or gives up and sends the rollback stop |
| `ClockTreeSafety.RefuseKeeps` | module/clock/src/clock_tree_management.c:221-265 | a refusal travels down the path while the rollback stop climbs, in either order |
| `ClockTreeSafety.DropKeeps` | module/clock/src/clock_tree_management.c:178-212 | a stop takes exactly the reference it carries and moves on only when that was the last |
| `ClockTreeSafety.StrangerIsBusy` | module/clock/src/clock_tree_management.c:221-235 | while a clock waits, an event from anybody but its parent changes no clock, and a clock that sent it hears BUSY |
| `ClockTreeSafety.UnqueriedStop` | module/clock/src/clock_tree_management.c:137-147 | a stop whose query fails takes no reference and goes no further; a waiting requester hears the error, unless the query is pending |
| `ClockTreeSafety.FailedStop` | module/clock/src/clock_tree_management.c:178-212 | a driver that fails to stop with the last reference leaves the clock running without one, and the parent is told of the stop with the error |
| `ClockTreeSafety.UnsupportedStop` | module/clock/src/clock_tree_management.c:178-192 | a driver that does not support the stop leaves the clock running without a reference, and nobody hears |
| `ClockTreeSafety.StatusIsPassedOn` | module/clock/src/clock_tree_management.c:148-212 | an idle clock counts the reference and hands on the status that the event carries, whichever it is |
| `ClockTreeSafety.FailureIsPassedOn` | module/clock/src/clock_tree_management.c:236-265 | a waiting clock that hears of a failure from its parent is idle again and hands on its status |
| `ClockTreeSafety.OtherGoalIgnored` | module/clock/src/clock_tree_management.c:213-216 | a request for a third state is dropped |
| `ClockTreeSafety.CountsWrap` | module/clock/src/clock_tree_management.c:148-180 | the reference count is a 32-bit one |
| `ClockTreeRuns.RunKeeps` | module/clock/src/clock_tree_management.c:114-272 | the invariant holds along every serialised run of requests and events, and the running tree clocks without a reference are those of the start less the ones to which the run gave one |
| `ClockTreeRuns.StepLoose` | module/clock/src/clock_tree_management.c:148-152 | an event changes the set of running tree clocks without a reference only by taking out the one to which it gives a reference |
| `ClockTreeRuns.AncestorsRun` | module/clock/src/clock_tree_management.c:114-272 | all ancestors of a running clock run, also while events are in flight |
| `ClockTreeRuns.EveryState` | module/clock/src/clock_tree_management.c:114-272 | every state of every serialised run from boot: ancestors of running clocks run, nonzero count implies running, the waiting clocks form one upward path of stopped clocks from the requested one, each the caller of the next, BUSY is never sent, and with nothing in flight the count is starts + running children |
| `ClockTreeRuns.QuietState` | module/clock/src/clock_tree_management.c:114-272 | with nothing in flight a tree clock runs exactly when at or below it a start is outstanding or a clock runs without a reference; its count is nonzero exactly when it runs and is not itself such a clock |
| `ClockTreeRuns.SameLedgerSameState` | module/clock/src/clock_tree_management.c:114-272 | two quiet states with the same outstanding starts and the same clocks running without a reference have the same counts and driver states |
| `ClockTreeRuns.EveryQuietState` | module/clock/src/clock_tree_management.c:114-272 | the quiet-state law for every run from any boot, the clocks without a reference being those of the boot that no start has claimed since |
| `ClockTreeRuns.LooseAtBoot` | module/clock/src/clock_tree_management.c:340-351 | the clocks without a reference at boot are the running tree clocks none of whose children runs |
| `ClockTreeRuns.SingleFollowsRequests` | module/clock/src/mod_clock.c:377-384 | over every run a single-node clock runs if and only if the last request that its driver obeyed was a start, or there was none and it ran at first; the tree leaves it alone |
| `ClockTreeRuns.StartIsAllOrNothing` | module/clock/src/clock_tree_management.c:148-265 | a drained start has exactly one completion; on success the ledger gains it and the clock and all ancestors run; otherwise, whichever driver refused or could not be queried, every clock, single-node ones included, is as before but for the caller it recorded last, if and only if no event of it gave a reference to a clock running without one |
| `ClockTreeRuns.NoneLoose` | module/clock/src/clock_tree_management.c:148-265 | where every running tree clock has a reference, as when the tree is stopped at boot, every start is all or nothing |
| `ClockTreeRuns.StopGivesBack` | module/clock/src/clock_tree_management.c:178-212 | a drained stop has succeeded, completed once, and taken one start off the ledger |
| `ClockTreeRuns.SuccessMeansRunning` | module/clock/src/clock_tree_management.c:58-93 | at the very event that reports success the clock and all its ancestors run |
| `ClockTreeRuns.WillingDriversSucceed` | module/clock/src/clock_tree_management.c:148-265 | if no driver refuses, the drained start has succeeded |
| `ClockTreeRuns.TrafficIsLinear` | module/clock/src/clock_tree_management.c:114-272 | the events of a request, rollback included, number at most 3 per level to start and 1 per level to stop |
| `ClockTreeRuns.StepDecreases` | module/clock/src/clock_tree_management.c:114-272 | every event makes the measure of the transition smaller |
| `ClockTreeHangs.UnsupportedHangs` | module/clock/src/clock_tree_management.c:104-142 | an event at which a driver answers a start with "not supported" or "pending", or the query of an idle clock with "pending", leaves no event in flight, no completion, and every clock as it was |
| `ClockTreeHangs.AnswerUnused` | module/clock/src/clock_tree_management.c:114-272 | at every other event such an answer is not asked for |
| `ClockTreeHangs.AnsweredIff` | module/clock/src/clock_tree_management.c:104-265 | a drained start has its completion, with the exact outcome of `StartIsAllOrNothing`, if and only if no driver told to start answered "not supported" or "pending" and no query was answered "pending"; otherwise nothing is in flight, the requested clock is still the initiator, the path above it waits unless it was its own driver, and the reference of the last event stays on the clock it left |
| `ClockTreeHangs.SucceedsIff` | module/clock/src/clock_tree_management.c:127-265 | a drained start has succeeded if and only if no driver on the way refused, neither by a failing query nor by its answer to the start |
| `ClockTreeHangs.RefusalIsReported` | module/clock/src/clock_tree_management.c:127-265 | a start that was refused completes with the status of the driver or query that refused first |
| `ClockTreeHangs.JammedForever` | module/clock/src/clock_tree_management.c:221-235 | whatever is requested and answered afterwards, serialised or not, the waiting clocks of such a start wait, are never completed, and turn every further request away |
| `ClockTreeHangs.StartLost` | module/clock/src/clock_tree_management.c:155-166 | a concrete start from boot that is lost this way |
| `ClockTreeRefusals.HarmlessIff` | module/clock/src/clock_tree_management.c:148-265 | every drained start of a clock is all or nothing, whatever the drivers answer, if and only if the nearest running clock at or above it is the clock itself, has a reference, or does not exist |
| `ClockTreeRefusals.UnexposedIsAllOrNothing` | module/clock/src/clock_tree_management.c:148-265 | under that condition, checked before the request, the start is all or nothing |
| `ClockTreeRefusals.ExposedIsSpoiled` | module/clock/src/clock_tree_management.c:148-265 | otherwise there are driver answers with which the start climbs to that clock, is refused below it and drains |
| `ClockTreeRefusals.TakesFirst` | module/clock/src/clock_tree_management.c:148-152 | only the nearest running clock can be given its first reference; if that is the requested clock the start succeeds at once |
| `ClockTreeRefusals.RefusalStops` | module/clock/src/clock_tree_management.c:178-212 | a start that did not succeed has stopped the clock to which it gave its first reference |
| `ClockTreeRefusals.RootLost` | module/clock/src/clock_tree_management.c:221-265 | two clocks at boot, the root running: a start of the child that its driver refuses drains with the root stopped |
| `ClockSetState.EveryCallAnswered` | module/clock/src/mod_clock.c:356-412 | in every run of tree and requests together, responses equal requests of a tree clock but for the one under way; that one has an event of the tree in flight or its one completion event under way; the response goes to the requester once, with the status the tree gave, and a start is reported as successful while the clock and all its ancestors run |
| `ClockSetState.ProcessKeeps` | module/clock/src/clock_tree_management.c:58-93 | the tree gives a completion for the clock exactly when it stops owing it, and then the request was pending |
| `ClockSetState.CompletionResponds` | module/clock/src/mod_clock.c:63-106 | handling the completion event sends the one response, with that status |
| `ClockSetState.StepKeeps` | module/clock/src/mod_clock.c:63-412 | the call, its puts, requests to other clocks, pre-request events, the handlers of c and every other step keep the joint invariant |
| `ClockRate.Propagation.ProcessRate` | module/clock/src/clock_tree_management.c:274-306 | one rate event updates the children in order up to the first failing driver, each with the rate the event had at first although its parameter is overwritten with each output, and queues each one's computed output |
| `ClockRate.Propagation.Drain` | module/clock/src/clock_tree_management.c:274-306 | the traffic terminates and leaves the updates of `Propagate` |
| `ClockRate.Propagate` | module/clock/src/clock_tree_management.c:274-306 | breadth-first processing makes exactly the updates of the top-down recursive definition |
| `ClockRate.EventConserves` | module/clock/src/clock_tree_management.c:274-306 | each event trades what it owed for updates made and events queued |
| `ClockRate.UpdatesUpToFailure` | module/clock/src/clock_tree_management.c:289-304 | one event updates exactly the children that take a rate, up to the first whose driver fails, each with the rate of the event, and sends each its driver's output |
| `ClockRate.UpdatesInOrder` | module/clock/src/clock_tree_management.c:289-304 | these are the first children that take a rate, in table order, and the events follow the updates one for one |
| `ClockRate.PropagationIsTopDown` | module/clock/src/clock_tree_management.c:274-306 | if no fed driver fails, every descendant reachable through clocks that take a rate is updated exactly once with its parent's output, and nothing else is updated |
| `ClockRate.HitIsUnique` | module/clock/src/clock_tree_management.c:274-306 | two siblings never reach the same clock |
| `ClockRate.CompleteIffHealthy` | module/clock/src/clock_tree_management.c:274-306 | all of them are updated if and only if no fed driver fails on the rate it is given |
| `ClockDevice.Device.CreateAsyncRequest` | module/clock/src/mod_clock.c:122-148 | queues the request event; the request is ongoing and pending exactly if that worked, otherwise the status of the put is returned |
| `ClockDevice.Device.ProcessRequestEvent` | module/clock/src/mod_clock.c:108-120 | handling the request event is the engine step that parks its response, which is then found under the saved cookie, addressed to the requester |
| `ClockDevice.Device.ProcessResponseEvent` | module/clock/src/mod_clock.c:63-106 | posts the parked response with the driver's result, with the status of that put, or reports that there is none |
| `ClockRequests.PostRequestKeeps` | module/clock/src/mod_clock.c:122-148 | the request event is queued with no completion of its protocol ahead of it, also when the completion interrupt came first |
| `ClockRequests.HandleRequestKeeps` | module/clock/src/mod_clock.c:108-120 | the handled request event has left its response parked under the saved cookie, addressed to the requester |
| `ClockRequests.HandleCompletionKeeps` | module/clock/src/mod_clock.c:63-106 | the completion event always finds the parked response, and one response goes to the requester with the driver's result |
| `ClockRequests.StepKeeps` | module/clock/src/mod_clock.c:63-222 | the driver's "pending", the request, its completion from an interrupt (before or after the request is queued) or a handler, their handlers, and any other step of the system, light events included, keep the request invariant |
| `DelayedResponses.MoveUnique` | framework/src/fwk_core.c:141-176 | below counter wrap no two standard events that ask an entity for a response, nor its parked responses, share a cookie |
| `DelayedResponses.MoveHolds` | framework/src/fwk_delayed_resp.c:56-78 | what is parked under a cookie is found there until it is asked for |
| `DelayedResponses.ParkHolds` | framework/src/fwk_core.c:212-238 | the response that a handler delays is found under the cookie of its event |
| `ClockRequests.EveryRequestAnswered` | module/clock/src/mod_clock.c:63-148 | in every run replies equal requests but for the one in progress, exactly one completion is owed or under way for a request under way, and a completion is being handled only after its request event was, with the response parked |
| `ClockDevice.PowerNotifications.ProcessPreTransition` | module/clock/src/mod_clock.c:660-729 | is the step `OnPre` on the fields, the framework and the subscriptions: a refusal by the driver or the notification is answered at once; otherwise the answer waits exactly when subscribers were notified |
| `ClockDevice.PowerNotifications.ProcessResponse` | module/clock/src/mod_clock.c:771-824 | is the step `OnReply`: counts the response and keeps a veto; the last one posts the delayed response to the power domain, with the status of that post; an unexpected one changes nothing and is a panic status |
| `ClockPower.EveryTransitionAnswered` | module/clock/src/mod_clock.c:660-824 | in every serialised run of the whole system each pre-transition whose notices were sent is answered exactly once; every notified subscriber has responded or its notice or response is under way; whenever a response is handled the parked response is found; the answer goes out with the last response, when nothing of the transition is under way, with success exactly when all responses were |
| `ClockPower.PreAnswer` | module/clock/src/mod_clock.c:660-729 | a pre-transition is answered at once, with the driver's or notification's status, exactly when the driver refuses, the notification is not valid, or nobody could be notified |
| `ClockPower.PreNotices` | module/clock/src/mod_clock.c:660-729 | a pre-transition that the driver accepts reaches each subscriber in order, as far as there are free structures, with the state that follows from the target state of the power domain; otherwise nobody |
| `ClockPower.PreKeeps` | module/clock/src/mod_clock.c:660-729 | handling a pre-transition keeps the invariant: each notice queued is owed by its subscriber, and the response is parked under the saved cookie |
| `ClockPower.NotifyTokens` | framework/src/fwk_notification.c:119-149 | the notices queued are one per notified subscriber |
| `ClockPower.ReplyKeeps` | module/clock/src/mod_clock.c:771-824 | one subscriber's response: the last one, and only that, sends the parked response to the power domain that asked |
| `ClockPower.StepKeeps` | module/clock/src/mod_clock.c:660-824 | the clock's steps and every other step of the system keep the invariant |
| `ClockPower.OverlapLoses` | module/clock/src/mod_clock.c:660-729 | handling a second pre-transition while responses to the first are missing loses the first, if and only if the driver refuses the second or its notification is valid; otherwise the first keeps its counter and cookie but its collected status is reset, so it is right only if all responses so far were successes |
| `ClockPower.OverlapReached` | module/clock/src/mod_clock.c:660-729 | a run from boot that reaches such a second pre-transition and loses the first |
| `ClockPower.LostForever` | module/clock/src/mod_clock.c:771-824 | a response lost this way stays parked in every continuation |
| `Framework.Context.Init` | framework/src/fwk_core.c:290-312 | a pool of n structures, each free once; an empty pool is an error |
| `Framework.Context.Put` | framework/src/fwk_core.c:104-177 | field by field: a delayed response leaves its list with the new parameters; a light event has the identifier, source, target and response request that were posted and no other quality; a standard one is the event posted under the next cookie; at the end of its queue; or the failure and no change |
| `Framework.Context.PutPublic` | framework/src/fwk_core.c:361-431 | the same, the source being the entity whose event is processed in thread context; an invalid source is refused |
| `Framework.Context.PutNotification` | framework/src/fwk_core.c:347-355 | the same for a notification, queued under the emitter it names |
| `Framework.Context.ProcessNextEvent` | framework/src/fwk_core.c:188-254 | dispatch, any sequence of posts by the handler, then response or parking, then the structure is freed |
| `Framework.Context.ProcessIsr` | framework/src/fwk_core.c:256-284 | moves one interrupt event to the ordinary queue |
| `Framework.Context.ProcessEventQueue` | framework/src/fwk_core.c:314-325 | the nested loops are the recursive `Loop`: no event is in process afterwards, and interrupt events are left only if ordinary ones are |
| `Framework.LoopLeads` | framework/src/fwk_core.c:188-325 | processing the event queue is a run of engine moves: one turn of each handler used, in order (dispatch, its posts, its return), with pulls of interrupt events in between; it ends with both queues empty, or with every handler used and an ordinary event left |
| `Framework.AllDispatched` | framework/src/fwk_core.c:314-325 | when the handlers suffice, every event queued at the call, by an interrupt or not, has been dispatched |
| `Framework.LoopKeepsLaws` | framework/src/fwk_core.c:188-325 | so, after any run from boot, conservation and dispatch order hold in every state that processing the queue goes through |
| `Framework.Context.SearchDelayedResponse` | framework/src/fwk_delayed_resp.c:56-78 | finds the first parked response with the cookie, if there is one |
| `Framework.Context.GetDelayedResponse` | framework/src/fwk_delayed_resp.c:83-109 | succeeds exactly when a response with the cookie is parked, and returns it |
| `Framework.Context.GetFirstDelayedResponse` | framework/src/fwk_delayed_resp.c:134-160 | the longest parked response, with every error status |
| `Events.PutDelivers` | framework/src/fwk_core.c:66-177 | what a put queues, field by field, for light and standard events and delayed responses, and when it fails |
| `Events.PutEffect` | framework/src/fwk_core.c:104-177 | a put queues exactly one event, its structure taken from the delayed list or the pool, or fails and changes nothing |
| `EventLife.PostIsAnswered` | framework/src/fwk_core.c:104-254 | in any run an event that was posted and is gone has been dispatched and returned from in between; if it asked for a response, one response went to its poster, or was parked under its cookie, as long as a structure was free |
| `EventLife.PostQueues` | framework/src/fwk_core.c:361-431 | a post by a handler, an interrupt or as a notification queues one event from the right poster |
| `EventLife.ReturnLeaves` | framework/src/fwk_core.c:205-254 | the return of a handler sends one response, parks one, or leaves nothing, as was asked for |
| `Events.MoveConserves` | framework/src/fwk_core.c:66-284 | no step of handlers, interrupts or the main loop changes the number of places a structure is in |
| `Events.EventsConserved` | framework/src/fwk_core.c:66-312 | between the steps of any run each structure is in exactly one of free queue, ordinary queue, interrupt queue, one delayed-response list, current slot |
| `Events.MoveOrdered` | framework/src/fwk_core.c:256-284 | each step keeps an interrupt's event behind what was queued before it and what that triggered |
| `Events.DispatchOrder` | framework/src/fwk_core.c:256-325 | over any run dispatch follows entry order; an interrupt's event enters only when the ordinary queue is empty, after everything queued before and everything triggered by it; interrupt events keep their order |
| `Notifications.Registry.SearchSubscription` | framework/src/fwk_notification.c:89-108 | the first subscription with this source and target, or the length of the list |
| `Notifications.Registry.Subscribe` | framework/src/fwk_notification.c:180-230 | succeeds exactly when the pair is absent and a structure is free; the list is then the old one followed by the new pair and no other list changes; every error status, without a change |
| `Notifications.Registry.Unsubscribe` | framework/src/fwk_notification.c:232-272 | succeeds exactly when the pair is there; a list that had it once is left with all others in their order and without the pair, no other list changes and the structure is free again; every error status, without a change |
| `Notifications.Registry.SendNotifications` | framework/src/fwk_notification.c:119-149 | the walk over the subscribers is `NotifyAll` |
| `Notifications.Registry.Notify` | framework/src/fwk_notification.c:274-317 | status and count as the walk leaves them |
| `Notifications.OpConserves` | framework/src/fwk_notification.c:180-272 | no operation loses or duplicates a subscription structure |
| `Notifications.OpNoDuplicates` | framework/src/fwk_notification.c:180-272 | no list gets a second subscription with the same source and target |
| `Notifications.SubscriptionsConserved` | framework/src/fwk_notification.c:180-272 | both over every sequence of operations |
| `Notifications.SubscribeThenUnsubscribe` | framework/src/fwk_notification.c:180-272 | unsubscribing undoes subscribing: the lists are as before |
| `Notifications.NotifyIsExact` | framework/src/fwk_notification.c:119-149 | one event per matching subscriber, in subscription order, with its content, as long as there are free events; the count is the smaller of matching subscribers and free events |
| `RingBuffer.Ring.constructor` | framework/src/fwk_ring.c:21-33 | a ring over the given storage, empty |
| `RingBuffer.Ring.Length` | framework/src/fwk_ring.c:42-51 | the length of the contents, in every wrapped or full position |
| `RingBuffer.Ring.Free` | framework/src/fwk_ring.c:53-58 | capacity less the length of the contents |
| `RingBuffer.Ring.IsFull` | framework/src/fwk_ring.c:60-65 | exactly when the contents fill the storage |
| `RingBuffer.Ring.IsEmpty` | framework/src/fwk_ring.c:67-72 | exactly when the contents are empty |
| `RingBuffer.Ring.Peek` | framework/src/fwk_ring.c:91-115 | the oldest bytes, as many as wanted and there, are copied; the rest of the buffer and the ring are unchanged |
| `RingBuffer.Ring.Pop` | framework/src/fwk_ring.c:74-89 | the same bytes are removed |
| `RingBuffer.Ring.Push` | framework/src/fwk_ring.c:117-167 | the contents become the last capacity bytes of old contents followed by the data |
| `RingBuffer.Ring.Advance` | framework/src/fwk_ring.c:153-158 | tail, head and full flag after n bytes were written |
| `RingBuffer.Ring.Clear` | framework/src/fwk_ring.c:169-177 | empties the ring |
| `RingBuffer.RingOffset` | framework/src/fwk_ring.c:16-19 | the remainder is one wrap around the end |
| `RingBuffer.PeekWorks` | framework/src/fwk_ring.c:91-115 | the one-piece and two-piece copies are the oldest bytes |
| `RingBuffer.PopWorks` | framework/src/fwk_ring.c:74-89 | moving the head drops the oldest bytes |
| `RingBuffer.PushResult` | framework/src/fwk_ring.c:117-167 | writing at the tail, in one or two pieces, appends, or appends and overwrites the oldest |
| `BufferedLog.Logger.Buffer` | framework/src/fwk_log.c:68-86 | length byte and message enter exactly when both fit the free bytes |
| `BufferedLog.Logger.Printf` | framework/src/fwk_log.c:203-254 | buffered if it fits, otherwise counted as dropped (modulo 2^32), and nothing else changes |
| `BufferedLog.Logger.Unbuffer` | framework/src/fwk_log.c:256-334 | on the bytes: the next character leaves the ring and comes out exactly if the stream accepts it, the length byte ahead of it is taken in any case, and at the end the drop count is cleared and a report enters if it fits; with every status |
| `BufferedLog.Logger.Fetch` | framework/src/fwk_log.c:266-296 | between messages the next length byte is taken |
| `BufferedLog.Logger.Offer` | framework/src/fwk_log.c:299-330 | one character is fetched (the assertion holds), and removed only on success |
| `BufferedLog.Logger.Flush` | framework/src/fwk_log.c:336-350 | terminates whenever the stream does not stay busy; on success everything accepted was emitted, nothing is left, the drop count is zero and the report was accepted if it fits the ring; otherwise the stream failed and nothing is lost |
| `BufferedLog.PrintKeeps` | framework/src/fwk_log.c:68-86 | a print keeps the framing |
| `BufferedLog.UnbufferKeeps` | framework/src/fwk_log.c:256-334 | an attempt keeps the framing and, unless at the end, has a character to offer |
| `BufferedLog.NextCharacter` | framework/src/fwk_log.c:256-334 | the character offered is the first accepted one that has not come out |
| `BufferedLog.EmittedIsPrefix` | framework/src/fwk_log.c:68-334 | over any interleaving of prints and attempts the output is a prefix of the accepted messages in order, complete at the end |
| `BufferedLog.BusyLosesNothing` | framework/src/fwk_log.c:311-326 | a busy attempt changes nothing that a later success would not |
| `BufferedLog.AttemptEffect` | framework/src/fwk_log.c:256-334 | what an attempt does to (drops pending, bytes in ring) |
| `Lists.Init` | framework/src/fwk_slist.c:34-45 | an empty list, sentinel closed on itself |
| `Lists.IsEmpty` | framework/src/fwk_slist.c:58-71 | exactly when the sequence is empty; then tail and head agree |
| `Lists.Head` | framework/src/fwk_slist.c:47-56 | the first node or none |
| `Lists.PushHead` | framework/src/fwk_slist.c:73-91 | prepends; the pointer effect is also stated without assuming a well-formed list |
| `Lists.PushTail` | framework/src/fwk_slist.c:93-109 | appends |
| `Lists.PopHead` | framework/src/fwk_slist.c:111-134 | removes and detaches the first node; the last one leaves head and tail at the sentinel |
| `Lists.Next` | framework/src/fwk_slist.c:136-146 | the successor or none |
| `Lists.Remove` | framework/src/fwk_slist.c:148-177 | the walk terminates and removes the node, first, last or only; a node elsewhere changes nothing |
| `Lists.Contains` | framework/src/fwk_slist.c:179-200 | the walk terminates and decides membership |
| `Lists.OneSequence` | framework/src/fwk_slist.c:34-200 | the pointers determine the sequence a list represents |
| `Lists.DPushHead` | framework/src/fwk_dlist.c:17-31 | prepends, with prev pointers and tail through the sentinel |
| `Lists.DPushTail` | framework/src/fwk_dlist.c:33-46 | appends |
| `Lists.DPopHead` | framework/src/fwk_dlist.c:48-64 | removes and detaches the first node, also from an empty list |
| `Lists.DRemove` | framework/src/fwk_dlist.c:66-85 | removes any node, also the only or last one, and detaches it |
| `Lists.DInsert` | framework/src/fwk_dlist.c:87-115 | inserts before any node, or at the tail |
| `Atu.Device.ValidateRegion` | module/atu/src/atu_manage_utils.c:266-321 | misaligned, or clashing exactly when the new start lies in some known region: the early exit of the scan misses none |
| `Atu.EarlyExitSeesAll` | module/atu/src/atu_manage_utils.c:292-318 | once as many known slots were seen as are counted, no later slot is known |
| `Atu.AddCounts` | module/atu/src/atu_manage.c:52-99 | every add, with or without an owner, keeps the count usable for that scan |
| `Atu.Device.GetAvailableRegion` | module/atu/src/atu_manage_utils.c:196-224 | the lowest disabled slot, or an error when there is none |
| `Atu.Device.EnableRegion` | module/atu/src/atu_manage_utils.c:99-129 | enable bit and count, with the error cases |
| `Atu.Device.DisableRegion` | module/atu/src/atu_manage_utils.c:131-162 | enable bit and count; a disabled slot is left alone |
| `Atu.Device.MapRegion` | module/atu/src/atu_manage_utils.c:323-370 | registers, saved region, owner, enable bit and count of a slot; an index past the table changes nothing, and an enabled slot is overwritten before it is refused |
| `Atu.Device.AddRegion` | module/atu/src/atu_manage.c:52-99 | outright: when any region is accepted, with each error; the lowest free slot is enabled and holds its owner, region and bus attributes, and nothing else changes; the bookkeeping survives exactly if nothing was added or the region has an owner |
| `Atu.Device.RemoveRegion` | module/atu/src/atu_manage.c:101-123 | outright, in any table: who may remove, with each error, and the slot freed; keeps the bookkeeping invariant if it held |
| `Atu.Device.InitRegions` | module/atu/src/atu_manage.c:181-201 | the configured regions are added in turn up to the first failure, keeping the bookkeeping if they have owners |
| `Atu.AddKeeps` | module/atu/src/atu_manage.c:52-99 | enable bits, owners, saved regions, registers and count agree after an add |
| `Atu.RemoveKeeps` | module/atu/src/atu_manage.c:101-123 | and after a removal |
| `Atu.EveryRunIsConsistent` | module/atu/src/atu_manage.c:52-123 | over every run of adds and removes with owners they agree, and slots enabled elsewhere stay enabled and unowned |
| `Atu.EverySlotIsAdded` | module/atu/src/atu_manage.c:52-123 | in every state of every such run an owned slot holds a region that was added for its owner, and carries the low 16 bits of that region's attributes |
| `Atu.OnlyTheOwnerFrees` | module/atu/src/atu_manage.c:101-123 | a slot changes hands or content only by its owner's removal |
| `Atu.OwnerIff` | module/atu/src/atu_manage.c:52-99 | the add does not check the owner: the bookkeeping survives if and only if the region has one, and a slot without an owner cannot be removed by anyone |
| `Atu.OwnerlessAdded` | module/atu/src/atu_manage.c:52-99 | a page added without an owner right after boot, which nobody can remove |
| `Atu.MapsRegion` | module/atu/src/atu_manage_utils.c:323-370 | the registers cover exactly the addresses of an aligned nonempty region that ends in the logical space, each translated to the physical base plus the offset |
| `Atu.CoverageIff` | module/atu/src/atu_manage_utils.c:323-370 | the registers cover exactly the region if and only if it ends in the logical space and is not empty at address zero |
| `Atu.WrappedCoversNothing` | module/atu/src/atu_manage_utils.c:341-349 | a region past the logical space covers nothing |
| `Atu.EmptyCovers` | module/atu/src/atu_manage_utils.c:341-349 | an empty region covers nothing, or everything if it starts at zero |
| `Atu.DisjointIff` | module/atu/src/atu_manage_utils.c:165-193 | a successful add keeps the managed regions disjoint if and only if the new one ends in the logical space and none of them starts strictly inside it |
| `Atu.EnclosingRegionAccepted` | module/atu/src/atu_manage_utils.c:165-193 | a region laid around an existing one is accepted, and they overlap |
| `Atu.TilesStayDisjoint` | module/atu/src/atu_manage.c:52-123 | with regions of one size aligned to it, every run keeps them disjoint |
| `Atu.OneSlotPerAddress` | module/atu/src/atu_manage_utils.c:323-370 | in a disjoint table at most one managed slot covers an address |
| `AtuMmio.TranslationIff` | module/atu_mmio/src/mod_atu_mmio.c:88-153 | a naturally aligned access lies in the mapped window and every byte reaches the requested physical address if and only if it is not the last of the 64-bit space under a lower window |
| `AtuMmio.LastByteMistranslated` | module/atu_mmio/src/mod_atu_mmio.c:88-94 | with the window at zero, the last byte of the space counts as mapped and is translated wrongly |
| `AtuMmio.WithinWindow` | module/atu_mmio/src/mod_atu_mmio.c:128-133 | a naturally aligned access does not cross the end of the window around it |
| `AtuMmio.AccessAgrees` | module/atu_mmio/src/mod_atu_mmio.c:156-222 | one access through the window is the access to flat memory |
| `AtuMmio.WindowAgreesWithFlat` | module/atu_mmio/src/mod_atu_mmio.c:88-222 | every sequence of naturally aligned reads and writes through the window, none of them in the wrapping family, gives the values and the memory of flat memory |
| `AtuMmio.OrdinaryNeverWraps` | module/atu_mmio/src/mod_atu_mmio.c:88-94 | accesses that stay below the last byte of the space are never in that family |
| `AtuMmio.ReadBack` | module/atu_mmio/src/mod_atu_mmio.c:156-222 | a read returns the value last written there |
| `AtuMmio.ReadUndisturbed` | module/atu_mmio/src/mod_atu_mmio.c:156-222 | a write that shares no byte with a read does not affect it |
| `AtuMmio.Mmio.MapRegion` | module/atu_mmio/src/mod_atu_mmio.c:97-153 | the cache is as the model says and the returned address is the local one; the slot follows |
| `AtuMmio.Mmio.Remap` | module/atu_mmio/src/mod_atu_mmio.c:117-147 | remove and add both succeed, and the window's slot is enabled for its owner and holds the new base and the window's attributes |
| `AtuMmio.Routed` | module/atu_mmio/src/mod_atu_mmio.c:97-153 | every byte of an access inside the window is covered by the window's slot and by no other enabled slot |
| `AtuMmio.RoutedIsThrough` | module/atu_mmio/src/mod_atu_mmio.c:156-222 | where one slot alone covers the access, looking slots up by address is translating through that slot |
| `AtuMmio.Mmio.ReadValue` | module/atu_mmio/src/mod_atu_mmio.c:156-189 | the hardware looks the slot up by address: outside the wrapping family it is the window's slot alone and the value is the one at the physical address; in the family that slot does not cover the access |
| `AtuMmio.Mmio.WriteValue` | module/atu_mmio/src/mod_atu_mmio.c:192-222 | likewise memory changes at the physical address and nowhere else, outside the wrapping family |
| `AtuMmio.WindowFreed` | module/atu_mmio/src/mod_atu_mmio.c:117-126 | the removal of the window's own region succeeds and leaves a free slot |
| `AtuMmio.WindowTaken` | module/atu_mmio/src/mod_atu_mmio.c:132-147 | the new window is accepted |
| `Ccsm.ComparatorIff` | module/ccsm/src/mod_ccsm.c:51-57 | the narrowing comparator has the right sign for all pairs up to distance d if and only if d < 2^31 |
| `Ccsm.FalseHit` | module/ccsm/src/mod_ccsm.c:51-57 | an entry 2^32 above the key compares equal to it |
| `Ccsm.Bsearch` | module/ccsm/src/mod_ccsm.c:73-83 | whatever entry the library probes: a hit agrees with the key in its low 32 bits; in a sorted table within 2^31 of the key it finds exactly what is there (both lookup tables) |
| `Ccsm.GetIndexedRates` | module/ccsm/src/mod_ccsm.c:59-95 | under the same condition the lookup succeeds exactly when the rate is in the table, and returns that entry |
| `Ccsm.DownIsFloor` | module/ccsm/src/mod_ccsm.c:285-310 | rounding down is the greatest multiple not above |
| `Ccsm.UpIff` | module/ccsm/src/mod_ccsm.c:285-310 | rounding up is the least multiple not below if and only if rate + step - 1 fits 64 bits; otherwise it is zero |
| `Ccsm.NearestIff` | module/ccsm/src/mod_ccsm.c:250-265 | rounding to nearest, ties down, is right if and only if that sum fits or the way down is short |
| `Ccsm.NearestWraps` | module/ccsm/src/mod_ccsm.c:250-265 | the highest rate, rounded to a multiple of ten, becomes zero |
| `Ccsm.RoundingIff` | module/ccsm/src/mod_ccsm.c:285-310 | status of every mode; the result is a step multiple whenever rounding succeeds, and the promised one if and only if nothing overflows |
| `Ccsm.SelectRates` | module/ccsm/src/mod_ccsm.c:312-356 | nominal is the rounding of the requested rate, or of a table entry with that rate; without a table the fallback is 0 below the threshold and from it on the greatest step multiple not above percentage * (nominal / 100) exactly when that product fits 64 bits; success exactly when nominal is in [min, max] and fallback is 0 or at least min; a sorted table near the rate fails exactly if the rate is not in it |
| `Ccsm.PercentageIff` | module/ccsm/src/mod_ccsm.c:335-345 | the derived fallback against the percentage of the nominal rate, with the exact condition for the wrap |
| `Ccsm.PercentageBelow` | module/ccsm/src/mod_ccsm.c:335-345 | the derived fallback does not exceed the nominal rate |

## Left out

- Overlapping clock-tree transitions: declared unsupported by the code.
- ClockModule.Clocks.SetState: the puts are parameters; that an ongoing request is cleared by its completion is modelled in `ClockRequests` and `ClockSetState`, not in this class.
- ClockRequests: the four request kinds are one, and the rate notifications sent along with a completion are steps of the rest of the system.
- ClockPower: the current state that the driver is asked about is part of its answer, and the post-transition notification, which asks for no response, is left out.
- Framework.Context: the queues are sequences of event values with a slot number; that the linked lists implement sequences is proved separately in `Lists`, not composed with it.
- Framework.Context.ProcessEventQueue: handlers are given as a finite list, one per dispatched event; the endless main loop around it and log unbuffering when idle are not modelled.
- Notifications.Registry: the list a subscription belongs to and the validity of identifiers are parameters.
- Atu.Device: the enable register is a sequence of bits, not a machine word; a slot's registers are one record.
- Atu.Device.AddRegion: the check of the bus attributes (module/atu/src/atu_common.c) is its result only.
- Lists: the optional element counters for high-water marks.
- Ring buffer: memory copies are element-wise loops, and the source of a push is a byte sequence.
- Log: formatting, time stamps, the banner (which bypasses the ring) and interrupt masking.
- Ccsm.GetIndexedRates: the register-value table is searched by the same `Bsearch`; its copy of the two settings is not repeated.
- CCSM power-state and droop-mitigation sequencing, modulator and PLL register programming: depends on device behaviour.
- ATU delegate mode: a request/response protocol over a transport and timer that are not part of this model.
- Identifier packing, module descriptors, I/O streams, interrupts, memory allocation, time and tracing: thin wrappers that would only add easy members.
- Cache maintenance and logging calls inside the modelled functions.

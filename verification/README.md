# Verified model of the owned-turn protocol

A Go SDK drives a remote agent through a bridge process. A caller starts a
*turn*, reads its events, may cancel it, and waits for its one result, while a
reader goroutine, a dispatcher, a lifecycle watcher, the call that started the
turn and the client's disconnect and close sweeps all act on the same state. This
project models that protocol in Dafny and proves what it keeps in every
interleaving: the turn (`turn.go`), the client's subscription registry, reply
correlation, sweeps and instance ownership (`client.go`), the supervised shutdown
(`launch.go`, `process_unix.go`), the framing (`protocol/framing.go`) and the
bounded diagnostics and reconnect waits (`session.go`, `client.go`).

`dafny verify dfyconfig.toml` checks all of it.

## How it is modelled

- A **critical section** under a mutex, or one operation on a channel, is one
  atomic step. It appears twice: as a function on values, over which runs are
  defined, and as a method of a class whose fields are the object's fields. `Turn`,
  `SubscriberCell`, `SubscriptionTable` and `LaunchedInstance` have their value as a
  function of the fields, and each contract equates the new value with the function
  of the old one. `PendingTable` and `InstanceSlot`, whose objects are also held by
  goroutines, show (`Shows`) a state of a run, given as a ghost argument, and each
  method leads from one that shows the state before its step to one that shows the
  state after it. Code that does part of its work outside the lock is two steps and
  two methods; only a number taken from an atomic counter counts as part of the
  section that first uses it.
- A **run** is any sequence of atomic steps. A step that is not enabled changes
  nothing, so a statement about all schedules is one about all interleavings.
  Each goroutine is a program counter beside the shared state (`TurnRun.System`).
- A **channel** is a value: buffer, capacity, closed flag. A send on a closed
  channel, a second close, or a plain send that nobody makes room for is not
  excluded; it sets `faulted`. That no run faults is a theorem.
- An **error** is the set of sentinels that `errors.Is` finds in it, plus the two
  structured errors that `errors.As` looks for.
- **Termination** and **cleanup** run against an oracle: a `World` that fixes when
  the process is reaped, when a context ends, how operations answer, how late a
  select looks and which ready case it takes; a `FileSystem` with a fault and a duration for every
  operation. The contracts hold for all of them.
- The **framing** runs on bytes; whether a line is a JSON object is a parameter.

Modules: `Channels`, `Errors`, `Events`, `States`, `Bytes`, `Durations`
(vocabulary); `TurnCore` (one turn), `TurnRun` (its system), `TurnSafety`,
`TurnReasons`, `TurnPhases`, `TurnOrder`, `TurnCancelRace`, `TurnBudget`,
`TurnDrain`, `TurnLateCancel` (what its runs keep), `TurnMoves` (what its
goroutines get done); `Subscribers`, `Registry`, `SubscriptionTable`;
`Correlation`; `Teardown`; `Ownership`; `SharedShutdown`; `Termination`; `Cleanup`;
`Framing`; `BoundedText`; `Backoff`.

## Where the code and its documentation disagree

The model follows the code.

- docs/architecture.md:131-139 has no transition from `starting` to `accepted`;
  turn.go:226-230 makes it. `TurnPhases.MovesAreDocumentedExactly` shows that it is
  the only undocumented one, and exactly when it is made.
- docs/architecture.md:242-244 says that no cancel request is written once a
  terminal result has won. turn.go:178-187 looks only when the first `Cancel` begins.
  `TurnLateCancel.LateWriteExactly`: the request of a first `Cancel` can still be
  written after the end exactly if the turn was not terminal at the call;
  `TurnLateCancel.CancelCanFollowTheEnd` is a run in which it is on its way.
- docs/architecture.md:316 says that the end of a caller's context escalates at once.
  launch.go:256-257 records the cause under the lock and demands the kill after it, so
  the shutdown can finish with a cause whose kill was never demanded
  (`SharedShutdown.ACauseCanComeWithoutItsKill`). `SharedShutdown.LateDemandExactly`
  says when a demand is still to come after the finish.
- `client.go:743-748` doubles a 64-bit duration without a check. With a `MaxBackoff`
  above 2^62 the doubling can overflow and the waits stop;
  `Backoff.PromiseIsKeptExactly` says for which policies the documented waits happen.
- Sanitizing an identifier a second time changes it when only underscores are left
  of its first 96 bytes but not of all of it (`BoundedText.SanitizingAgain`).
- `Subscription.Next` may report a closure before it has handed out what is still
  buffered (client.go:134-147). `Subscribers.EveryFailureReportsTheCause` says when it
  must fail and when it may.

## Model

| member | source | states |
|---|---|---|
| TurnSafety.TurnContract | turn.go:212-490 | In every interleaving of all producers and callers: no channel of the turn is sent to after its closure or closed twice; at most one terminal commit; terminal flag, terminal phase and closed `terminalDone` coincide; the result matches the documented table, a lifecycle result with the kind and the cause of the end of the lifecycle context; a terminal turn has decided acceptance, as nil if `message_accepted` won and as the result's error otherwise; Completed excludes and Canceled requires an acknowledged cancellation; at most one cancel request is written. |
| TurnSafety.DecisionsAreFinal | turn.go:432-490 | Whatever a run has decided no continuation changes: result, acceptance, the shared result of Cancel, closed channels; the phase never falls back. |
| TurnSafety.PhaseKeepsUp | turn.go:119-125 | A started turn is past `starting`; once `message_accepted` is handled the turn is accepted or further; an acknowledged cancellation shows in the phase. |
| TurnSafety.StepKeepsInv | turn.go:212-490 | One atomic step of any goroutine keeps the joint invariant of turn, subscription, cancel request and reported results, and only extends what is decided. |
| TurnSafety.RunKeepsInv | docs/architecture.md:161-198 | The same for every schedule. |
| TurnSafety.CancelStep | turn.go:353-396 | Every step keeps the hand-over protocol of the cancel request: its reply channel has room for the reader, is closed by at most one sweep, and `cancelDone` is closed exactly when the attempt is over. |
| TurnSafety.ReportStep | docs/architecture.md:178-191 | Every result that is stored or about to be stored has the error its kind documents; a lifecycle kind has the cause the lifecycle context ended with. |
| TurnReasons.TheResultTellsWhy | turn.go:212-268 | In every run a terminal turn has one reason, the result tells it, and it is what happened: the subscription failed with the cause it was closed for, the first write failed, the lifecycle context ended, that event ended the turn or found the queue full, or the consumed turn_done finished it. |
| TurnReasons.TheCauseSurvives | turn.go:492-505 | A result that a closed subscription gave has the sentinel of the cause it was closed for. |
| TurnReasons.WhyStep | turn.go:212-351 | Every step of every goroutine keeps reason and result together. |
| TurnMoves.EveryEventDoesItsWork | turn.go:222-266 | What a live turn does with the event in hand, by its kind: records acceptance, queues it or overflows, drops it, queues turn_done and completes or cancels, or ends with the provider's code or as a protocol error. |
| TurnMoves.TheNextEventIsTaken | turn.go:216 | The oldest buffered event is handled next. |
| TurnMoves.AFailedSubscriptionEndsTheTurn | turn.go:216-220 | A subscription that fails ends a live turn with a result that tells its cause. |
| TurnMoves.TheDispatcherCleansUp | turn.go:445-455 | After its commit the dispatcher closes the subscription and the queue. |
| TurnMoves.TheLifecycleEndsTheTurn | turn.go:336-349 | The end of the lifecycle context ends a live turn with its kind and cause, and the subscription is closed. |
| TurnMoves.TheWatcherLeaves | turn.go:349 | The watcher of a terminal turn leaves. |
| TurnMoves.AFailedWriteEndsTheTurn | session.go:273-280 | A failed write fails StartTurn and ends a live turn with a result that tells the failure; a successful one starts the turn. |
| TurnMoves.TheEventIsBuffered | client.go:582-588 | An event on the wire enters the turn's open subscription if there is room. |
| TurnMoves.TheReplyIsSeenAndHandedOver | client.go:565-579 | The reply to the pending cancel request is shown to the turn, where an OK marks the cancellation, and reaches the request; any other reply changes nothing. |
| TurnMoves.CancelIsMade | turn.go:174-189 | The first Cancel of a live turn registers and writes one request; of a terminal one it returns at once without error. |
| TurnMoves.CancelTellsItsReply | turn.go:385-395 | Cancel returns nothing exactly for an OK, the code of an error reply, and ErrDisconnected for a swept request. |
| TurnMoves.CancelTellsItsFailure | turn.go:374-387 | Cancel returns the error that kept its request from being made, written or answered. |
| TurnPhases.MovesAreDocumentedExactly | docs/architecture.md:131-139 | In every run each phase change is a documented one, or starting to accepted; and the latter exactly when the dispatcher records `message_accepted` before the write is recorded as complete. |
| TurnPhases.AcceptedEarlyHappens | turn.go:226-230 | A run in which the undocumented move is the next step. |
| TurnPhases.DispatcherMovesPhase | turn.go:212-268 | What a dispatcher step can do to the phase. |
| TurnOrder.OrderedDelivery | turn.go:151-169 | In every run, what Next returned followed by what is queued is a prefix of the visible events of the wire, in order; only visible events; turn_done at most once, last, and only when the result was committed from it; nothing consumed is lost while the turn goes on, and nothing read is lost while the subscription is open. |
| TurnOrder.ReservedSlotIsFree | turn.go:288-321 | In every run the turn_done that reaches the queue finds its reserved slot: the overflow branch of finishTurnDone is unreachable. |
| TurnOrder.NothingAfterTheEnd | turn.go:288-311 | No continuation adds an event to the queue of a terminal turn. |
| TurnOrder.FinishKeepsQueue | turn.go:306-334 | Handling turn_done keeps the queue invariant, and there is always a slot. |
| TurnOrder.PublishKeepsQueue | turn.go:288-304 | Publishing keeps order and the reserved slot, and a refusal drops only the refused event. |
| TurnOrder.QueueStep | turn.go:212-334 | Every step of every goroutine keeps the order and room of the turn's queue. |
| TurnOrder.StreamStep | client.go:580-592 | Every step keeps the stream from the wire to the dispatcher a gap-free prefix. |
| TurnCancelRace.WireOrderDecides | client.go:565-579 | If the OK reply to the pending cancel request is on the wire before the turn_done the result comes from, the result is Canceled under every schedule; Canceled needs such a reply; a Completed turn with an acknowledged cancellation had its turn_done first. |
| TurnCancelRace.FinishKeepsRace | turn.go:306-334 | The decisive step: a turn_done later on the wire is handled only after the turn has seen the acknowledgement. |
| TurnCancelRace.AckStep | turn.go:374-384 | Every step keeps what links the acknowledgement on the wire with `cancelRequested`. |
| TurnCancelRace.CancelSucceedsOnlyOnOk | turn.go:385-396 | In every run a Cancel that made its request returns nothing only if an OK to it was read. |
| TurnBudget.NoOverflowWithinBudget | session.go:267-271 | With at most EventBuffer+2 events on the wire, at most EventBuffer of them publishable, no schedule finds either queue full and the turn does not end as overflowed, even if Next is never called. |
| TurnBudget.RefusalMeansBeyondBudget | turn.go:288-304 | A live turn refuses an event only if the wire carried more than EventBuffer publishable ones. |
| TurnBudget.FullMeansBeyondBudget | client.go:583-591 | The turn's subscription is found full only by a wire of more than EventBuffer+2 events. |
| TurnBudget.BlameStep | turn.go:263-266 | An overflow result comes from a queue that was really found full. |
| TurnDrain.ClosedTurnsDrain | turn.go:212-268 | Once the subscription is closed, whatever closed it, every continuation that lets the dispatcher move a bounded number of times (three per buffered event, and six) sees it leave, close `events`, and leave the turn terminal. |
| TurnDrain.ReadersReachTheResult | turn.go:421-430 | Once the dispatcher has left, every continuation in which Next is called as often as events are queued, whatever else happens in between, returns all that is queued, in order, and from then on Next reports the result's error, or the end of the stream exactly for Completed, with any context. |
| TurnDrain.EveryEndUnsubscribes | turn.go:445-455 | A terminal turn's subscription is closed, or its committer is about to close it. |
| TurnDrain.DispatcherProgresses | turn.go:216-220 | With a closed subscription no dispatcher step waits: each reduces the remaining work. |
| TurnLateCancel.LateWriteExactly | turn.go:174-189 | After any run, the first Cancel: some continuation sees the turn end and then its request written, if and only if the turn was not terminal at the call. |
| TurnLateCancel.OnlyTheFirstCancelCounts | turn.go:178-187 | A later Cancel changes nothing, and in a terminal turn a write can still come exactly if the first one has not written yet. |
| TurnLateCancel.CancelCanFollowTheEnd | docs/architecture.md:242-244 | A run that reaches such a state. |
| TurnCore.SectionsKeepSound | turn.go:119-490 | The sections of acceptance and of the terminal commit keep the turn's internal consistency and undo no decision. |
| TurnCore.CallersKeepSound | turn.go:151-189 | The same for the sections of Next and Cancel and for the closing of the queue; the shared result of Cancel is final once it is published. |
| TurnCore.QueueSectionsKeepSound | turn.go:288-334 | The same for publishEvent and finishTurnDone. |
| TurnCore.ObserverKeepsSound | turn.go:374-384 | The same for the reply observer. |
| TurnCore.FinishedTurnReads | turn.go:421-430 | Reading a finished turn, with any context: the queue in order, then its error, or the end of the stream exactly when it completed. |
| TurnCore.LiveTurnReads | turn.go:151-169 | Reading a turn that goes on: the queue in order, then waiting as long as the context lasts. |
| TurnCore.Turn.constructor | turn.go:99-112 | A new turn is the model's new turn, with one queue slot more than the event buffer. |
| TurnCore.Turn.MarkWriteComplete | turn.go:119-125 | The fields change as the specification of the section says. |
| TurnCore.Turn.FinishAcceptance | turn.go:432-443 | Acceptance is written once; reports whether this call wrote it. |
| TurnCore.Turn.MarkAccepted | turn.go:226-230 | The phase becomes accepted unless the turn is terminal or canceling. |
| TurnCore.Turn.FinishTerminal | turn.go:476-490 | The first result is stored with acceptance, phase and notification; later ones change nothing; consistency is kept and no decision undone. |
| TurnCore.Turn.PublishEvent | turn.go:288-304 | An event goes in if the turn is live and a slot besides the reserved one is free. |
| TurnCore.Turn.FinishTurnDone | turn.go:306-334 | turn_done is queued and the result decided by `cancelRequested`, in one section; consistency is kept and no decision undone. |
| TurnCore.Turn.ObserveReply | turn.go:374-384 | Only an OK reply to a live turn marks the cancellation as acknowledged. |
| TurnCore.Turn.BeginCancel | turn.go:178-187 | The once-only part of Cancel. |
| TurnCore.Turn.FinishCancel | turn.go:361-364 | The shared cancel result is stored and published; consistent, and final if it is the first. |
| TurnCore.Turn.CloseEvents | turn.go:213 | The deferred close of the dispatcher. |
| TurnCore.Turn.Next | turn.go:151-169 | Receives the oldest event, reports the end, is interrupted by a context that is done, or waits; an event or the end goes before the context, and an interruption changes nothing. |
| Errors.SubscriptionErrorsAreDocumented | turn.go:492-525 | Every error of a subscription or a write becomes a result whose error its kind documents, and never Completed or Canceled. |
| Errors.TheResultTellsTheFailure | turn.go:492-525 | The result has the sentinel of the failure it is made from, a bridge exit before a closed client before an overflow; then its framing sentinels; then ErrDisconnected. |
| Events.VisibleMeansClassified | turn.go:244-262 | An event can reach Next exactly if it decodes and is classified as something other than advisory; the failures of classification have documented errors. |
| Events.EveryKindHasItsClass | session.go:694-714 | The class of every event kind, by name. |
| Events.EveryEventHasItsFate | turn.go:222-266 | Which kinds are delivered, ignored, recorded as acceptance, and end the turn, and with which error. |
| Subscribers.OperationsKeepSound | client.go:645-656 | No operation on a subscriber panics or blocks its closer, and a subscriber is in the map exactly while it is open. |
| Subscribers.EveryFailureReportsTheCause | client.go:130-148 | A subscriber closed with a cause fails with that cause through every case of the select, and never blocks; it must fail once it is empty. |
| Subscribers.OpenNeverFails | client.go:134-147 | An open subscriber never reports a failure. |
| Subscribers.ClosingTakesEffect | client.go:645-656 | Closing closes all three channels, stores and offers the cause, and keeps what is buffered. |
| Subscribers.DeliveryTakesEffect | client.go:584-590 | An open subscriber with room gets the event at the end of its queue, a full one is closed with ErrSubscriberOverflow, a closed one is left alone. |
| Subscribers.TheOldestEventIsReceived | client.go:134-139 | The events case receives the oldest event, open or closed, and waits only on an open and empty subscriber. |
| Subscribers.WithoutACauseTheClientDecides | client.go:636-640 | Without a cause the error is ErrClosed on a closed client and ErrDisconnected otherwise. |
| Registry.EveryRunKeepsInv | client.go:580-592 | In every run, for every subscriber: open exactly while in the map, no operation on a closed channel, received followed by queued is exactly what was put in. |
| Registry.StepKeepsInv | client.go:617-656 | One operation of any kind keeps it. |
| Registry.SubscribersAreIsolated | client.go:583-591 | The fate of a subscriber is a function of the operations that concern it; no other subscriber's overflow, closure or reading changes it. |
| Registry.StreamsFollowTheFanOut | client.go:583-591 | In every run of the client, from any moment on: what a subscriber is given is a prefix of all that the reader fans out from then on, and all of it while the subscriber is registered; closure and cause are final. |
| Registry.StreamHasNoGap | client.go:583-591 | The same for one subscriber and the operations that concern it, with received followed by queued equal to what was put in. |
| Registry.WholeRun | client.go:624-656 | From the creation of the client on: the invariant, and every failure an owner saw is the one cause its subscriber was closed for. |
| Registry.EveryOperationTakesEffect | client.go:580-700 | In every run, what each operation does to each subscriber: whom it closes, with which cause, and whom it leaves alone. |
| Registry.SubscribingTakesEffect | client.go:534-548 | A new subscriber has a new id and is open, or born closed with ErrClosed; nobody else is affected. |
| SubscriptionTable.SubscriberCell.CloseOnce | client.go:647-655 | The once-only closing of the three channels. |
| SubscriptionTable.SubscriptionTable.SubscribeOwned | client.go:534-548 | A fresh subscriber: in the map, or born closed with ErrClosed if the client is closed. |
| SubscriptionTable.SubscriptionTable.CloseSubscriber | client.go:645-656 | The entry goes and the subscriber closes with the cause. |
| SubscriptionTable.SubscriptionTable.Unsubscribe | client.go:617-623 | The same without a cause, if the entry is there. |
| SubscriptionTable.SubscriptionTable.DeliverTo | client.go:584-590 | One subscriber's share of the fan-out. |
| SubscriptionTable.SubscriptionTable.Publish | client.go:582-592 | One pass delivers to every subscriber of the map exactly once, in whatever order, deleting as it goes. |
| SubscriptionTable.SubscriptionTable.Sweep | client.go:830-834 | The map ends empty and every subscriber in it was closed once with the cause. |
| SubscriptionTable.SubscriptionTable.FailTurnSubscribers | client.go:692-700 | Exactly the turn subscribers are closed and removed; the others are untouched. |
| Correlation.RepliesReachTheirRequest | client.go:362-420 | In every run with any number of requests, timeouts, disconnects and Close: an entry is taken at most once; its reply channel is never both sent to and closed, never closed twice, and has room for the reader; a returned reply was read and carries the request's own id. |
| Correlation.TheFrameIsReturned | client.go:565-579 | In every run a frame that answers a waiting request is handed over and returned by it; one that answers nobody is dropped. |
| Correlation.AnArrivedReplyIsReturned | client.go:403-410 | In every run a waiting request whose entry the reader took returns a frame that was read and has its id. |
| Correlation.EveryWaitHasItsOutcome | client.go:398-419 | A closed reply channel gives ErrDisconnected, an expired context a timeout, a closed client ErrClosed, a failed write its error; whoever gives up leaves no entry. |
| Correlation.SweepsTakeEffect | client.go:668-677 | A disconnect and Close close the transport before they swap, and take everything that is in the map then. |
| Correlation.SweptRequestsAreClosed | client.go:678-680 | The reply channel of every request that was swapped out is closed. |
| Correlation.NoWaiterIsForgotten | client.go:403-419 | A waiting request is in the map with its swap still to come, in the hands of the reader or of a sweep, or its wait is over. |
| Correlation.TheSweepsReachEveryWaiter | client.go:668-680 | Once a disconnect or Close has swapped the map, in every continuation no waiting request is in it, and when the reader is idle and no sweep is walking every waiting request can return. |
| Correlation.SweepStep | client.go:398-401 | Every step keeps what makes that true: the transport is closed before the swap, and a request that is not written before that is never a waiter. |
| Correlation.OutcomesAreFinal | client.go:403-419 | A request returns once. |
| Correlation.StepKeepsInv | client.go:565-579 | Every step keeps each request in exactly one pair of hands. |
| Correlation.PendingTable.Register | client.go:377-381 | A new id, a new reply channel of capacity one, one more entry: the registration step of the run. |
| Correlation.PendingTable.Remove | client.go:612-616 | The entry goes, if it is still there, and its owner has taken it. |
| Correlation.PendingTable.TakeForReader | client.go:566-571 | The reader's lookup and delete, as that step of the run; a miss changes nothing. |
| Correlation.PendingTable.HandOver | client.go:576 | The reader's send, outside the lock and after the observer, as that step of the run. |
| Correlation.PendingTable.SwapOut | client.go:674-677 | The locked part of a sweep, of a disconnect or of Close, as that step of the run. |
| Correlation.PendingTable.CloseReplies | client.go:678-680 | The loop of a sweep makes a sequence of steps of the run after which nothing swapped out is left, and has closed each reply channel exactly once. |
| Teardown.NoTurnIsStranded | session.go:270-279 | After a disconnect, once things have settled, every StartTurn that succeeded has a closed subscription, with a cause unless its own turn closed it, and no StartTurn succeeds any more; for all interleavings of any number of StartTurns, disconnects and Close. |
| Teardown.NoWaiterOutlivesClose | client.go:816-834 | From the end of Close's sweep on no subscription is ever open, old or new. |
| Teardown.CloseTellsEverybody | client.go:830-834 | In every run with a sweep of Close, and in every continuation: a subscription that was open until the sweep is closed with ErrClosed, one made since says ErrClosed, and one closed before keeps its own cause. |
| Teardown.BornClosed | client.go:538-542 | A subscription made once the closed channel is closed says ErrClosed in every continuation. |
| Teardown.ClosedStaysClosed | client.go:647-655 | Closure and its cause are final. |
| Teardown.StarterStep | client.go:448-471 | Every step keeps a started turn connected, about to be swept, or closed. |
| Teardown.LockStep | client.go:658-690 | Every step keeps the one disconnect under way the holder of the lock, and the transport closed behind it. |
| Teardown.DisconnectTellsTheTurns | client.go:681-689 | In every run and continuation: an ordinary disconnect closes exactly the open turn subscriptions, with ErrDisconnected, and leaves raw ones alone; a terminal one closes all with its cause. |
| Teardown.StartTurnSucceedsExactly | client.go:448-471 | StartTurn succeeds, with an open turn subscription, exactly on a connected client that is not closed and whose write goes through. |
| Teardown.DisconnectTakesEffect | client.go:664-689 | A disconnect that goes on marks the client, closes the transport, sweeps, and gives up the lock. |
| Teardown.DisconnectMayReturn | client.go:661-663 | It returns early only on an ending client, or an ordinary one on a disconnected client. |
| Teardown.CloseTakesEffect | client.go:806-835 | Close signals, closes the transport, sweeps everybody with ErrClosed, and is done; a second one changes nothing. |
| Ownership.OneOwner | docs/architecture.md:285 | In every run an instance is handed out at most once or shut down at most once, never both; neither while it is attached or claimed; a Close that claimed it shuts it down exactly once. |
| Ownership.ExitsAreTheOwners | client.go:222-243 | ErrBridgeExited is broadcast only for a bridge that exited and only while its own instance is attached; a current monitor is not canceled. |
| Ownership.DetachedIsForGood | client.go:252-262 | An instance that DetachInstance returned is never shut down by the client nor returned again. |
| Ownership.TheExitIsBroadcast | client.go:222-243 | In every run the exit of the bridge whose monitor is current is broadcast for the attached instance, and the monitor is done, unless the client is ending. |
| Ownership.AttachingTakesEffect | client.go:195-213 | An attached instance and its monitor are current, the monitor before is canceled. |
| Ownership.DetachingHandsOver | client.go:252-262 | The attached instance is handed over exactly if the client is not ending, and its monitor is canceled. |
| Ownership.CloseShutsDownWhatItFinds | client.go:806-838 | Close claims what is attached, cancels its monitor and shuts it down once. |
| Ownership.ACanceledMonitorLeaves | client.go:224-240 | A canceled monitor leaves without a broadcast. |
| Ownership.StepKeepsInv | client.go:195-262 | Every step keeps the ownership invariant, whatever is written to the state field meanwhile. |
| Ownership.BridgeExitMonitor.Cancel | client.go:191-193 | The cancel channel is closed, and at most once. |
| Ownership.InstanceSlot.SetInstance | client.go:195-213 | The attach step of the run: the old monitor is canceled, the new instance and its monitor are current. |
| Ownership.InstanceSlot.DetachInstance | client.go:252-262 | The detach step of the run: returns the instance and clears it exactly if there is one and the client is not closing. |
| Ownership.InstanceSlot.Claim | client.go:808-813 | The claim step of the run: Close takes the instance, cancels its monitor, and leaves the slot empty. |
| Ownership.InstanceSlot.CommitExit | client.go:231-243 | The commit step of the run: broadcasts, and forgets the monitor, exactly if the monitor is current, its instance attached, and the client not ending. |
| SharedShutdown.OneShutdownForAll | launch.go:192-206 | Any two callers that returned have the identical error, and the phases ran exactly once. |
| SharedShutdown.NothingClosesTwice | launch.go:257-306 | In every run the phases run at most once and neither channel is closed twice; a cause is on record if and only if the kill has been demanded or somebody who recorded one is about to demand it. |
| SharedShutdown.TheErrorKeepsItsCauses | launch.go:293-301 | The stored error is the error of the one run of the phases, if it had one, followed by the recorded context causes, which are pairwise non-equivalent and have the cause the owner came with. |
| SharedShutdown.TheFirstCallerOwns | launch.go:208-221 | The first caller owns the shutdown; one that comes after the finish only waits. |
| SharedShutdown.EveryCauseIsRecorded | launch.go:223-257 | Until the finish the cause a caller brings, and the one its context gives later, is recorded and the kill demanded. |
| SharedShutdown.NobodyWaitsForEver | launch.go:192-206 | From every run some continuation finishes the shutdown and lets the caller return its error. |
| SharedShutdown.FinishedIsFinal | launch.go:215-257 | A finished shutdown never changes its error or its causes; all that can still happen, once, is a demand for the kill. |
| SharedShutdown.LateDemandExactly | launch.go:242-257 | After the finish that demand is still to come exactly if a cause is on record and the kill not demanded. |
| SharedShutdown.ACauseCanComeWithoutItsKill | launch.go:256-257 | A run in which the shutdown finishes with a recorded cause before the kill is demanded. |
| SharedShutdown.RecordKeeps | launch.go:246-255 | Recording keeps the causes pairwise non-equivalent, loses none, and has the new one or an equivalent. |
| SharedShutdown.LaunchedInstance.BeginShutdown | launch.go:208-221 | The first caller, and only it, becomes the owner. |
| SharedShutdown.LaunchedInstance.RecordCause | launch.go:241-256 | The locked scan for an equivalent cause and the record: the causes stay pairwise non-equivalent, and the new one or an equivalent is among them unless the shutdown is finished. |
| SharedShutdown.LaunchedInstance.DemandKill | launch.go:257 | The once-only close that follows the unlock. |
| SharedShutdown.LaunchedInstance.FinishShutdown | launch.go:293-307 | The phase error, if any, followed by the recorded causes is stored, and the waiting callers are released. |
| Termination.TerminateProcessGroup | process_unix.go:57-151 | For every world: an invalid group is rejected with nothing done; otherwise the trace follows the protocol, a reap timeout is reported exactly when it did not end in a reap, a failed signal exactly when one was sent and failed, the waits add up to at most grace plus reap timeout plus how late the two selects look, and KILL is sent before the grace period is over only on the demand of a context, which ends it at once. |
| Termination.Escalate | process_unix.go:121-151 | The part after an unsuccessful grace period. |
| Termination.AwaitGrace | process_unix.go:93-109 | Whichever ready case the select takes, and however late it looks: the grace period is left early only for the result or for a demand that has come, and no later than it must. |
| Termination.WaitForProcessReap | process_unix.go:153-162 | Bounded; true only if the result was there, and false only after the full time. |
| Termination.AcceptedTraces | docs/architecture.md:302-324 | In every trace that follows the protocol: signals are a prefix of TERM, KILL; the result is received at most once and then the group is neither checked nor signaled; KILL comes after the grace period, a true liveness answer and its report; the grace period starts after TERM; the reap is reported exactly when received. |
| Termination.Terminate | process_unix.go:57-151 | The same read off the trace of every termination, in numbers; and no KILL is sent once the result is there when the code looks. |
| Termination.ProgressRemembers | process_unix.go:57-151 | What the position in the protocol says about the steps so far. |
| Cleanup.RemoveOwnedRuntimePaths | launch.go:832-889 | For every file system and all faults: failed validation changes nothing; only expected owned files of safe kinds go, and the run directory when empty; success means they are gone; a permanent error is met at most once, in the last attempt; any other error is given up on only when the time is over; the attempts are bounded by the timeout; without faults it succeeds. |
| Cleanup.RemoveOwnedRuntimePathsOnce | launch.go:891-931 | One attempt: what it may remove, what success means, when an error is permanent, and that it succeeds if nothing fails. |
| Cleanup.RemoveOwnedInstanceHome | launch.go:933-969 | Only what is under a home the SDK made can go; success means the home is gone; a failing removal is repeated until the time is over, in boundedly many attempts. |
| Cleanup.CleanupOwnedInstancePaths | launch.go:809-822 | A persistent home survives. Whatever goes is a recorded file of an expected name and a safe kind in the run directory of the home, or that directory when empty, or lies under a home the SDK made for an ephemeral instance. |
| Cleanup.NoProblemMeansExpected | launch.go:841-853 | Validation passes exactly if every recorded path is an expected one. |
| Cleanup.ExpectedMeans | launch.go:800-807 | The expected paths, spelled out. |
| Cleanup.MadeHereMeans | launch.go:934-938 | The homes the SDK made, spelled out. |
| Cleanup.AttemptsFit | launch.go:869-888 | The bound on the attempts, spelled out: one for each delay of 50 ms that starts before the time is over, and the first. |
| Framing.Encoder.Write | protocol/framing.go:19-32 | Writes exactly an object encoding within the limit and a LF; each refusal has its own error and writes nothing, and a breaking writer gets a prefix of the line. |
| Framing.Decoder.ReadFrame | protocol/framing.go:42-75 | The loop over the buffered reader computes the specified parse of the first line. |
| Framing.RoundTrip | protocol/framing.go:19-75 | The lines of any list of object encodings within the limit read back as that list, and then the end of input. |
| Framing.WriteAll | protocol/framing.go:19-32 | Repeated Write leaves exactly those lines. |
| Framing.ExactLimit | protocol/framing.go:47-69 | A frame is too large exactly: with LF, if its body exceeds MaxSize; with CRLF, if it exceeds MaxSize-1; unterminated, if it does without its CR. |
| Framing.ExactOutcome | protocol/framing.go:42-75 | What a read of an ended line gives, for every body, limit and object test, and what it leaves for the next read. |
| Framing.ExactOutcomeOfTheRest | protocol/framing.go:42-75 | The same for the rest of the input without an end, of a source that ends and of one that breaks. |
| Framing.FramesAreSound | protocol/framing.go:42-75 | On any input a returned frame is a non-empty object within the limit without LF that stood at the front, something was consumed, and the rest is a suffix. |
| BoundedText.TruncateUTF8 | session.go:407-416 | Computes the specified cut; the result is a prefix within the limit. |
| BoundedText.TruncationKeepsWholeCharacters | session.go:407-416 | Of any valid UTF-8 text (section 3 of RFC 3629) the longest prefix of whole characters that fits. |
| BoundedText.EncodingIsReadBack | session.go:407-416 | The characters of RFC 3629, section 3: encoding can be read back, and has the length of the character's range. |
| BoundedText.Sanitize | session.go:391-405 | The loop computes the specified identifier: safe, not empty, at most 96 bytes. |
| BoundedText.SafeRunesAre | session.go:394 | The safe characters, spelled out. |
| BoundedText.SanitizingAgain | session.go:391-405 | A second pass changes nothing, exactly unless only underscores are left of the 96 bytes kept. |
| BoundedText.SanitizingAgainCanDiffer | session.go:400-404 | An identifier for which it does. |
| BoundedText.BoundedMessage | session.go:385-389 | Every diagnostic is at most 256 bytes and holds both identifiers whole, each of them a safe name that is not empty: the outer truncation never cuts. |
| BoundedText.TheTextsAre | session.go:386-387 | The texts of a diagnostic, spelled out. |
| Backoff.Waits | client.go:732-749 | The waits themselves, in 64-bit arithmetic: before attempt n it is min(Backoff * 2^(n-2), MaxBackoff) as long as the doublings fit, which they do for every MaxBackoff up to 2^62; a larger Backoff is waited constantly, and one that is not positive not at all. |
| Backoff.PromiseIsKeptExactly | client.go:743-748 | The wait before attempt n is min(Backoff * 2^(n-2), MaxBackoff) for all n, if and only if MaxBackoff is not above the last doubling of Backoff that 64 bits hold; 2^62 never is. |
| Backoff.WaitsAreAsPromisedExactly | client.go:734-748 | The same for the waits that are made: under any other maximum some promised wait is left out. |
| Backoff.LargeBackoffIsConstant | client.go:743-748 | A Backoff above MaxBackoff is waited constantly. |
| Backoff.OverflowStopsTheWaits | client.go:743-748 | A policy whose second wait overflows and is not made. |

## Left out

- Reconnect apart from its waits: its handshake and resume, the reader of a new connection, its state writes. A failed handshake write takes a lock Reconnect holds (client.go:400, 659, 725), so its liveness is not claimed, and `Teardown` and `Correlation` cover one connection.
- The goroutines' own loops: `dispatch`, `readLoop` and `watchLifecycle` are program counters in `TurnRun` rather than loops, because other goroutines act between their steps. The sections they run are methods of `TurnCore.Turn` and `SubscriptionTable.SubscriptionTable`.
- `Client.state` as a machine: writers outside this protocol can overwrite it, so only the closed channel, the cleared instance and the lock are relied on. `Ownership` lets anybody write it at any moment; `Teardown` lets a disconnect go on whatever it read and return only on a state that says so.
- Filtering of events by session: `subscribeOwned` ignores its argument (client.go:534-548), every subscription gets every event.
- Delivery of what is buffered when a subscription fails: the code does not promise it.
- The waits `Accepted`, `Wait` and that of `Cancel`: they read what the turn has decided, and their contexts end one call and change no state.
- That nobody calls Next before StartTurn has returned: the runs in which somebody does are included.
- Observations: payloads, order and counts; the program of `ignoreAdvisory`.
- JSON: an event is its kind and whether it decodes, a frame its bytes and whether they are an object. Error message texts.
- `runShutdown` itself (launch.go:260-291): the daemon stop and the order of the phases are straight-line; its phases are `Termination` and `Cleanup`, its result the parameter of `SharedShutdown`.
- Descendants of the process group's leader: the wait result is the leader's.
- Path syntax: `Cleanup` takes paths as component lists, that is, already cleaned.
- Other processes that change the file system between two operations of the cleanup, and so the race between inspecting a path and removing it. An operation that fails and works later is modelled.
- How a reader chunks its input: `bufio.Reader.ReadBytes` hides it from ReadFrame.
- Invalid UTF-8 in identifiers: the loop over a Go string yields U+FFFD for it, which is one more unsafe character; `BoundedText` starts from the characters.
- Transports, dialing, launching, credentials, environments, socket paths, redaction, `process_windows.go`.
- CreateSession, AttachSession, ForkSession, Send, option validation: straight-line requests that would add only easy members.

# Host SDK protocols in Dafny

A model of the stateful parts of the host SDKs and proofs about them. The modules follow the packages:

- **Statement-store sessions** (`statement-store`): the session reducer (`SessionMachine`, `SessionSteps`,
  `SessionRuns`, `SessionAdmission`), the driver with its waiting promises (`SessionCore`), recovery from the store (`SessionRestart`) while
  statements arrive (`SessionStartup`), the race of submissions for the request channel (`SubmissionRace`) and for the
  response channel (`ResponseChannel`), the expiry source (`ExpiryAllocator`), the store's contract (`StatementStore`)
  and the retry loop (`SubmitRetry`).
- **Host API** (`host-api`): request, cancel and response (`RequestTransport`), shared subscriptions
  (`SubscriptionMux`), the wire frame (`FrameCodec`, on `Scale`) and the error envelope (`CallError`).
- **Chain connections** (`host-substrate-chain-connection`): replay of subscriptions (`SubscriptionReplay`), pooled
  clients (`ConnectionPool`) and shared connections (`BranchedProvider`).
- **Container and apps** (`host-container`, `host-papp`): chain references (`ChainRefs`), the recovery window
  (`RecoveryWindow`), replaceable handlers (`HandlerSlot`), the rate limiter (`RateLimiter`) and the task pool
  (`TaskPool`).
- **File hand-off** (`handoff-service`): chunked upload and download (`FileLoader`).

What the code does step by step is an imperative class or method proved equal to a function; what it is for is proved
about those functions, over every step and every run. Concurrency is a relation between states: frames travel in
queues, submissions start at one time and land at another, timers fire when they like. A run is a sequence of states
(`ws`, `sts`, `ls`) with the actions between them.

## Where the code does not keep its promise

Each of these is proved, with the condition under which the promise does hold, and most with a concrete run.

- A message queued during initialization is not compared with the restored batch and goes out twice
  (`RestoredDuplicate`; `RunDistinctIff` gives the condition over whole runs).
- Recovery looks at the first peer response only, so with several peer devices an answered request can be restored
  (`SecondAnswerOverlooked`, `RestoresExactlyUnanswered`).
- A running session takes an answer to any id of its batch, recovery only to the id that survived in the store, so a
  batch answered under a superseded id comes back (`SupersededAnswerOverlooked`, `AnsweredBatchReturnsIff`).
- An answer that is decoded while `init` still runs finds nothing in flight and is never looked at again; if the query
  was too early for it, its batch is restored and stays unanswered (`EarlyAnswerRun`, `EarlyAnswerIff`).
- One foreign write can refuse several submissions that are live when the store decides; the bound of one per write
  holds for those still live when the reply comes (`OneWriteRefusesTwo`, `RejectionsBoundedByForeignWrites`).
- A request to an address that the host knows but does not handle is never answered, not even with a protocol error
  (`UnheardPends`, `NobodyLeftWaiting`).
- Reconnects show (`StepInvisibleIff` gives the condition, `ReconnectsAreInvisible` what holds under it): an unsubscribe
  that overtakes the renewal of its subscription (`DroppedRenewalRun`) and a second reconnect before a renewal is
  answered (`DoubleRenewalRun`) leave a server subscription behind, an event that an unsubscribe overtakes arrives under
  an id the consumer never held (`LateEventRun`), and an error reply to a renewal arrives as a second answer
  (`RefusedRenewalSeen`).
- A subscription to a method that the host knows but does not handle, or whose handler was removed, stays live at the
  client and is served by nobody (`SilentStart`, `QuietServedIff`, `UnheardStaysSilent`).
- A signal shared by several tasks starts tasks that it is about to abort: the slot that the first one frees goes to the
  next one in the queue (`SharedSignalStarts`; `StartsAfterSignalIff` gives the condition).
- `settle` for an idle pool waits while another pool is busy, for an event that need not come (`IdlePoolKeepsWaiting`,
  `SettlesIff`, `SettleWaitsForItsPool`).
- The task pool announces that it has settled while a task waits for its retry (`AnnouncedTooEarly`,
  `AnnouncedMeansSettled`).
- With a negative `destroyDelay` a held client is destroyed (`HeldClientsSurviveIff`).
- A branch that disconnects twice takes the connection from another (`DisconnectKeepsIff`).
- A broadcast that returns an operation id still live keeps its chain connected for ever (`RepeatedOperationId`,
  `RepeatPinsChain`; `QuietChainsAreClosed` gives the condition).
- `chainHeadOp` holds operations issued shortly after a stop, as its comments say, but every handler of the container
  asks for an active follow first, so the queue is never used (`GuardedNeverHeld`).
- A clean interrupt loses its version, and a domain reason without a value reads as a clean end (`InterruptRoundTrip`,
  `ReasonsTellApart`).
- A superseded answer to a peer request may never be seen, and its request stays marked answered (`UnseenAnswer`,
  `AbsorbedForGood`; `AbsorbedIff` gives the condition).
- Blobs with equal hashes make an upload impossible to download (`DownloadReturnsUpload`).
- The package README of the hand-off service names AES-256-GCM; the code uses ChaCha20-Poly1305. The model holds for
  either.

## Model

| member | source | states |
|---|---|---|
| SessionMachine.DrainQueue | packages/statement-store/src/session/stateMachine.ts:186-202 | the loop that moves queue heads into the batch computes `Drain`: it stops at the first head that does not fit, and FIFO order is kept |
| SessionSteps.DrainStops | packages/statement-store/src/session/stateMachine.ts:186-202 | draining ends only with an empty queue or with a batch in flight whose next head does not fit; nothing but batch and queue changes |
| SessionSteps.DrainKeeps | packages/statement-store/src/session/stateMachine.ts:186-202 | draining keeps the order of all unanswered messages and every token held |
| SessionSteps.DrainExtends | packages/statement-store/src/session/stateMachine.ts:173-202 | each submission of a drain carries the whole batch so far under a fresh id; the last one carries the batch that results |
| SessionSteps.StepSubmissions | packages/statement-store/src/session/stateMachine.ts:146-307 | for every event, the submissions emitted carry growing prefixes of the new live batch under consecutive fresh ids, and the last one carries all of it under the live id |
| SessionSteps.StepKeepsOrder | packages/statement-store/src/session/stateMachine.ts:206-307 | for every event that does not clear, restore or fail, finished messages followed by what is unanswered equal what was unanswered followed by the accepted message: no overtaking, no loss |
| SessionSteps.StepConservesTokens | packages/statement-store/src/session/stateMachine.ts:206-307 | for every event, tokens held plus the one submitted equal tokens held after plus those settled and those dropped, as multisets |
| SessionRuns.TokensConserved | packages/statement-store/src/session/stateMachine.ts:206-307 | over every run, tokens submitted are exactly those held, settled or dropped, with multiplicity |
| SessionRuns.EachTokenInOnePlace | packages/statement-store/src/session/stateMachine.ts:206-307 | in every run in driver order each submitted token is in exactly one of the live batch, one queue entry, the settled or the dropped tokens |
| SessionRuns.SettledWithOwnMessage | packages/statement-store/src/session/stateMachine.ts:224-263 | a token is settled only by the answer or failure of a batch that carried the very message it was submitted with |
| SessionRuns.RunIsFirstInFirstOut | packages/statement-store/src/session/stateMachine.ts:125-307 | while nothing is cleared and initialization has not failed, finished messages, live batch and queue in this order equal the restored batch followed by all accepted submissions |
| SessionRuns.StepKeepsDistinct | packages/statement-store/src/session/stateMachine.ts:125-144 | unanswered messages that are pairwise distinct stay so after every event; when a batch is restored, exactly if it repeats neither itself nor a queued message |
| SessionRuns.RunDistinctIff | packages/statement-store/src/session/stateMachine.ts:125-307 | over every run in driver order, unanswered messages are pairwise distinct at all times exactly when what the run restored repeated neither itself nor a message queued then |
| SessionRuns.RestoredDuplicate | packages/statement-store/src/session/stateMachine.ts:287-292 | a concrete legal run in which a message queued during initialization and found in the restored batch goes out twice |
| SessionRuns.QueueDistinct | packages/statement-store/src/session/stateMachine.ts:208-219 | queue entries are pairwise distinct as byte strings in every run |
| SessionRuns.NoStuckQueue | packages/statement-store/src/session/stateMachine.ts:186-282 | in the active phase, with the size oracle changing only at a capacity change, a non-empty queue has a batch in flight that its head does not fit |
| SessionRuns.AnswerMakesProgress | packages/statement-store/src/session/stateMachine.ts:230-263 | an answer or failure of the live batch strictly decreases queue length plus one for a live batch |
| SessionRuns.AnswersEmptyTheMachine | packages/statement-store/src/session/stateMachine.ts:230-250 | queue length plus one answers empty an active machine, whatever the size oracle says in between |
| SessionRuns.IdsOrderedStep | packages/statement-store/src/session/stateMachine.ts:104-110 | ids of a batch stay in the order drawn and below the next fresh id, so the live id is the newest one |
| SessionAdmission.SubmissionsFit | packages/statement-store/src/session/stateMachine.ts:146-202 | whatever the state and the event, a submission of more than one message fits the size budget at that moment |
| SessionAdmission.LiveBatchFitted | packages/statement-store/src/session/stateMachine.ts:146-307 | in every run the live batch is a single message, fitted at a step of the run, or is what a restore gave |
| SessionAdmission.SubmittedGoes | packages/statement-store/src/session/stateMachine.ts:146-222 | a new message goes out at once behind the whole live batch under a fresh id exactly if the session is past initialization, nothing is queued and the batch still fits; else it is parked last and the batch in flight stays as it is; a known message sends nothing |
| SessionAdmission.SilentUntilActive | packages/statement-store/src/session/stateMachine.ts:212-219 | before activation, with nothing in flight, no event sends anything |
| SessionAdmission.LifecycleStep | packages/statement-store/src/session/stateMachine.ts:284-306 | a session becomes active by its activation only and fails with the error of its initialization only; clearing drops batch and queue, a failed initialization the queue, and a restored batch has one id, its messages and no tokens |
| SessionAdmission.BatchSettledIff | packages/statement-store/src/session/stateMachine.ts:230-264 | tokens are resolved exactly by an answer to any id of the live batch, with its code, and rejected exactly by the failure of its newest submission, with its error; always the tokens of the whole batch |
| SessionAdmission.AnsweredIff | packages/statement-store/src/session/stateMachine.ts:224-299 | over every run a request of the peer is marked answered exactly if an answer was started, or the store showed one when it was restored, and no answer has failed since |
| ExpiryAllocator.NextExpiryIsLeast | packages/statement-store/src/submit/allocator.ts:18-23 | the next expiry is the least value above everything drawn and at least a high word of ones over the seconds since 2025-11-15; it leaves the 64-bit range exactly when the floor is the largest 64-bit value |
| ExpiryAllocator.DrawLayout | packages/statement-store/src/submit/allocator.ts:7-23 | with the numbers written out: a draw is at least `0xFFFFFFFF_00000000`; from 2025-11-15 on it is that plus the seconds since, or one above the last; before that date the low word is zero |
| ExpiryAllocator.Allocator.Next | packages/statement-store/src/submit/allocator.ts:50-53 | each draw is `NextExpiry` of the current value, strictly above it, and has the high word all ones |
| ExpiryAllocator.Allocator.RaiseFloor | packages/statement-store/src/submit/allocator.ts:54-56 | the current value becomes the larger of itself and the reported minimum |
| StatementStore.HighestExpirySurvives | packages/statement-store/src/adapter/inMemory.ts:65-87 | whatever order writes land in, each channel ends with a highest-expiry statement among those submitted to it |
| StatementStore.AlwaysConsistent | packages/statement-store/src/adapter/inMemory.ts:65-87 | over every sequence of writes the accepted expiries of a channel rise strictly and end at the survivor |
| StatementStore.LandingOrderIrrelevant | packages/statement-store/src/adapter/inMemory.ts:70-79 | if no two different statements share a channel and an expiry, every landing order of the same writes leaves the same statements |
| StatementStore.MatchesByTopics | packages/statement-store/src/adapter/inMemory.ts:43-49 | a filter for all topics finds a statement exactly if they are a subset of its topics, one for any topic exactly if they intersect them |
| StatementStore.SubmitDecides | packages/statement-store/src/adapter/inMemory.ts:65-86 | a statement is rejected exactly if its channel holds one of no lower expiry, and what is reported is the expiry sent and that of the holder; otherwise it becomes the holder, and nothing else changes |
| StatementStore.DeliveredInOrder | packages/statement-store/src/adapter/inMemory.ts:79-86 | the deliveries of an accepted statement go to the subscribers whose filter it matches, each once, in subscription order |
| StatementStore.InMemoryStore.SubmitStatement | packages/statement-store/src/adapter/inMemory.ts:65-86 | the method stores, logs and rejects as `Submit` does, keeps one highest statement per channel, and calls exactly the subscribers whose filter matches an accepted statement, in order |
| StatementStore.InMemoryStore.QueryStatements | packages/statement-store/src/adapter/inMemory.ts:43-57 | a statement is found exactly if it was accepted, matches the filter, and no accepted statement of its channel has a higher expiry; at most one per channel |
| SubmitRetry.SubmitWithRetry | packages/statement-store/src/submit/retry.ts:48-90 | the loop ends at the first turn at which the specification does; its error is the reply of the last turn; unbounded, it ends in success exactly on acceptance or on a priority rejection that is no longer live, bounded exactly on acceptance; while live it ends only when the budget of that kind is used up; it adopts the floor of every priority rejection up to there, and makes no call after the liveness gate closed |
| SubmitRetry.PrioritiesCounted | packages/statement-store/src/submit/retry.ts:69-83 | the priority rejections that use up their budget are counted one by one |
| SubmitRetry.TransientsCounted | packages/statement-store/src/submit/retry.ts:69-83 | and so are the transient ones |
| SubmitRetry.FloorsInOrder | packages/statement-store/src/submit/retry.ts:69-73 | the floor that each priority rejection reports is adopted, in the order of the rejections |
| SubmitRetry.WithinBudget | packages/statement-store/src/submit/retry.ts:63-86 | retried replies of a kind never exceed the budget of that kind, whatever the other kind did |
| SubmitRetry.BoundedCalls | packages/statement-store/src/submit/retry.ts:63-86 | with both budgets bounded at most attempts + priorityAttempts + 1 calls are made |
| SubmitRetry.UnboundedSparesTransients | packages/statement-store/src/submit/retry.ts:19-25 | under the unbounded policy at most attempts + 1 calls end in a transient error, however many priority rejections came between, and a priority rejection of a live submission never ends the loop |
| SubmissionRace.ActionKeepsInv | packages/statement-store/src/session/core.ts:173-260 | every start, decision of the store, reply, transient failure (before or after the store decided), retry, abort, foreign write and floor raise keeps the race invariant |
| SubmissionRace.SurvivorNeverRegresses | packages/statement-store/src/session/core.ts:227-260 | with attempts reaching the store in any order and replies coming at any time, the own statement on the request channel never goes back to an earlier decision, in particular never to a batch whose abort landed |
| SubmissionRace.SurvivorIsPrefixOfBatch | packages/statement-store/src/session/stateMachine.ts:172-176 | while its batch is unanswered the own statement on the channel is a prefix of the batch, and all of it for the newest id |
| SubmissionRace.NewestLandedStays | packages/statement-store/src/session/stateMachine.ts:172-176 | once the store took the newest submission, whether or not its reply comes, the own statement on the channel is the full unanswered batch as long as that id stays live |
| SubmissionRace.LiveRejectionIsForeign | packages/statement-store/src/session/core.ts:230-233 | a submission still live when its rejection comes was rejected because of a foreign statement not blamed before |
| SubmissionRace.RejectionsBoundedByForeignWrites | packages/statement-store/src/session/core.ts:230-246 | over any run, submissions still live when their rejection comes, which are the ones sent again for it, are rejected at most once per foreign write, so unbounded priority retries end |
| SubmissionRace.FirstRefused | packages/statement-store/src/session/core.ts:230-246 | a concrete run from the start in which a foreign statement refuses a live submission, whose reply is still on its way |
| SubmissionRace.OneWriteRefusesTwo | packages/statement-store/src/session/core.ts:230-246 | continuing it, the same foreign statement refuses the next submission, live too when the store decides; the first is superseded by then and is not sent again |
| SubmissionRace.RetryClearsRejection | packages/statement-store/src/submit/submitStatement.ts:40-48 | after the reported minimum was adopted, the attempt drawn next is taken by the store, if still live, unless a foreign write landed since the rejection was decided |
| SubmissionRace.AttemptStep | packages/statement-store/src/session/core.ts:238-256 | an attempt is on the wire until it reaches the store or fails, then its reply is until it arrives or is lost, and a refused or failed one backs off until it is tried again; a new one is above the floor |
| SubmissionRace.RaisedFloorCleared | packages/statement-store/src/submit/allocator.ts:47-58 | over every run an attempt started after the floor was raised is above the minimum it was raised to |
| SessionRestart.RecoverResumes | packages/statement-store/src/session/core.ts:438-496 | a recovered session is active with the restored messages ahead of everything queued meanwhile, and each submission carries a prefix of that sequence containing the restored messages |
| SessionRestart.RestoresExactlyUnanswered | packages/statement-store/src/session/core.ts:472-481 | a stored own request is restored exactly when the first peer response does not name its id; with at most one peer response, exactly when no response names it |
| SessionRestart.AnsweredBatchReturnsIff | packages/statement-store/src/session/core.ts:472-481 | with at most one peer response, a batch that the running session would have ended is restored exactly when the response names an id of the batch other than the one that survived in the store |
| SessionRestart.SupersededAnswerOverlooked | packages/statement-store/src/session/core.ts:472-481 | a concrete batch submitted twice, answered under its first id, that is restored under its second |
| SessionRestart.SecondAnswerOverlooked | packages/statement-store/src/session/core.ts:472-481 | with two peer responses only the first is inspected: a concrete store in which an answered request is restored |
| SessionRestart.NextSubmissionAccepted | packages/statement-store/src/session/core.ts:440-444 | after the floor was raised over the own statements, the next submission is accepted on a channel holding one of them, whatever the clock |
| SessionRestart.RestartRecoversBatch | packages/statement-store/src/session/core.ts:438-481 | if the store took the newest submission of the old session, whether or not the reply came, and no other writer replaced it, a new session restores exactly the unanswered batch |
| SessionStartup.StepKeepsInv | packages/statement-store/src/session/core.ts:291-330 | until `init` has finished nothing is in flight, whatever is queried, delivered, decoded or submitted meanwhile |
| SessionStartup.HandledOnce | packages/statement-store/src/session/core.ts:408-496 | over every run of a starting session a statement of the peer is handled, by decoding it or by the query that shows it first, at most once |
| SessionStartup.SeenIff | packages/statement-store/src/session/core.ts:408-496 | a statement is known exactly if it has arrived or the query showed it |
| SessionStartup.EarlyAnswerIff | packages/statement-store/src/session/core.ts:408-496 | over every run of a starting session, the restored batch stays live although its only answer was handled exactly when that answer is not the first response of the query and was handled before `init` finished: known from the query, or dispatched while nothing was in flight; it is never looked at again |
| SessionStartup.EarlyAnswerRun | packages/statement-store/src/session/core.ts:408-496 | a concrete run in which the answer arrives after the query, is decoded before `init` finishes, and is lost |
| SessionCore.DispatchSettles | packages/statement-store/src/session/core.ts:146-225 | the promises after dispatching an event are those before with exactly the tokens of its settlement resolved or rejected |
| SessionCore.WaitersAfter | packages/statement-store/src/session/core.ts:146-225 | after an event the waiters are those before plus the submitter minus the tokens it settles |
| SessionCore.SettlesOnce | packages/statement-store/src/session/core.ts:194-202 | settling gives the outcome to exactly the pending promises among the tokens and changes no other, so a promise settles once |
| SessionCore.SubmitKeepsSound | packages/statement-store/src/session/core.ts:507-531 | submitting keeps the keys of `pendingDelivery` equal to the tokens the machine holds |
| SessionCore.EventKeepsSound | packages/statement-store/src/session/core.ts:146-260 | every other event keeps them equal too, so no waiter is orphaned |
| SessionCore.RecoverKeepsSound | packages/statement-store/src/session/core.ts:436-496 | recovery keeps them equal and ids ordered |
| SessionCore.Session.SettleTokens | packages/statement-store/src/session/core.ts:194-202 | the loop settles exactly the pending ones among the tokens and removes them |
| SessionCore.Session.RunEffects | packages/statement-store/src/session/core.ts:204-225 | the loop performs the effects in order: submissions are started, tokens settled |
| SessionCore.Session.Dispatch | packages/statement-store/src/session/core.ts:146-152 | the machine steps by the reducer and its effects are performed |
| SessionCore.Session.SubmitRequestMessage | packages/statement-store/src/session/core.ts:507-531 | errors for a disposed session, an unbuildable or oversized message and a failed initialization change nothing; otherwise a fresh token waits, and a new message is submitted behind the whole live batch if nothing stands in its way and the batch still fits, and parked last if not |
| SessionCore.Session.ReceiveResponse | packages/statement-store/src/session/core.ts:319-328 | a response naming any id of the live batch resolves exactly the tokens of that batch; any other changes nothing |
| SessionCore.Session.SubmitFailed | packages/statement-store/src/session/core.ts:248-260 | only the failure of the newest id of the live batch rejects its tokens; any other changes nothing |
| SessionCore.Session.RejectAllPending | packages/statement-store/src/session/core.ts:396-401 | every waiter is rejected with the error and none is left |
| SessionCore.Session.ClearOutgoingStatement | packages/statement-store/src/session/core.ts:654-681 | batch and queue are dropped, all waiters rejected, and the id to supersede is the live one |
| SessionCore.Session.FailInit | packages/statement-store/src/session/core.ts:403-406 | initialization fails for good and all waiters are rejected |
| SessionCore.Session.Init | packages/statement-store/src/session/core.ts:436-496 | the state after both queries is that of `Recover`, and the floor is above every own expiry |
| SessionCore.Session.CapacityChanged | packages/statement-store/src/session/core.ts:367-373 | messages parked when the budget was tighter are re-evaluated, in order |
| SessionCore.Session.Dispose | packages/statement-store/src/session/core.ts:683-698 | nothing is left in flight, queued or waiting |
| ResponseChannel.NextKeepsOrder | packages/statement-store/src/session/core.ts:533-570 | every step keeps attempts of newer answers above those of older ones |
| ResponseChannel.NextKeepsMarks | packages/statement-store/src/session/core.ts:533-570 | every step keeps at most one unfailed answer per request, matching the responded marks |
| ResponseChannel.AnswersShownInOrder | packages/statement-store/src/session/core.ts:551-555 | the store takes answers in the order they were started: a retry never brings back an older answer |
| ResponseChannel.AnsweredIff | packages/statement-store/src/session/core.ts:546-566 | a request is marked answered exactly while it has an answer under way, accepted or superseded, and it has at most one |
| ResponseChannel.StartStep | packages/statement-store/src/session/core.ts:533-555 | an answer is started exactly for a known request that is not marked answered, and becomes the latest |
| ResponseChannel.StatusStep | packages/statement-store/src/session/core.ts:551-566 | an answer is done when the reply to an accepted attempt arrives, and the latest backs off after any other outcome that is not final |
| ResponseChannel.KnownIff | packages/statement-store/src/session/stateMachine.ts:224-299 | over every run a request can be answered exactly once it has arrived or was restored |
| ResponseChannel.LandingDecides | packages/statement-store/src/adapter/inMemory.ts:65-86 | the store takes an attempt exactly above what the channel holds, and else reports that expiry |
| ResponseChannel.AttemptsClearFloors | packages/statement-store/src/session/core.ts:238-246 | over every run each attempt is above every reported minimum and every attempt before it, so a retry clears what refused it |
| ResponseChannel.NewestIsNeverAbsorbed | packages/statement-store/src/session/core.ts:556-566 | only an answer superseded by a newer one is given up silently; a failure of the newest rolls its mark back |
| ResponseChannel.AbsorbedIff | packages/statement-store/src/session/core.ts:551-566 | over any run, an answer is given up silently exactly when an attempt of it came to nothing after a newer answer was started, and rolled back exactly when it ended in a final error as the newest |
| ResponseChannel.AbsorbedForGood | packages/statement-store/src/session/core.ts:557-561 | a superseded answer that failed is never started again |
| ResponseChannel.UnseenAnswer | packages/statement-store/src/session/core.ts:557-561 | a concrete run in which that answer was never on the channel |
| ResponseChannel.ResponseDesk.SubmitResponseMessage | packages/statement-store/src/session/core.ts:533-550 | unknown requests are errors, answered ones need nothing, others are marked before the submission starts |
| ResponseChannel.ResponseDesk.SubmissionFailed | packages/statement-store/src/session/core.ts:556-566 | a failure is surfaced and rolled back exactly when the answer is still the latest |
| RequestTransport.RequestHandler.OnFrame | packages/host-api/src/transport.ts:596-628 | the method answers, withdraws, registers or ignores a call as `OnCallFrame` says |
| RequestTransport.RequestHandler.OnSettled | packages/host-api/src/transport.ts:628-647 | a settling invocation answers only while the call is its own: with the value it returned if that encodes, else with a host failure |
| RequestTransport.NextKeepsInv | packages/host-api/src/transport.ts:486-649 | every call, abort, delivery and settlement keeps the invariant: unless nobody listens, each call is on its way, with a handler or answered, and only one of them |
| RequestTransport.AnsweredAtMostOnce | packages/host-api/src/transport.ts:599-647 | no id is answered twice, and an unanswered call is still on its way or has a handler whose signal has not fired, unless nobody listens at its address |
| RequestTransport.PostedIff | packages/host-api/src/transport.ts:531-647 | over every run a response is on the log exactly if a step caused it: the handler of the call returned that value, encodable, or threw or did not encode, before the call was withdrawn; the address was unknown; the payload did not decode; or a cancel reached the call in flight |
| RequestTransport.SettledIff | packages/host-api/src/transport.ts:561-577 | a settled promise has a value exactly if the handler of its call returned that value, encodable, before the call was withdrawn, and a host failure exactly if it threw or returned what does not encode |
| RequestTransport.SettledIffDelivered | packages/host-api/src/transport.ts:524-543 | a promise is settled with an answer exactly if that was delivered for its call and the caller has not aborted it |
| RequestTransport.SettledHandlerAnswers | packages/host-api/src/transport.ts:599-647 | after its handler settles, or a listening host processed a cancel for it, a call has its answer |
| RequestTransport.PromiseSettlesOnce | packages/host-api/src/transport.ts:507-543 | a promise that settled or was aborted never changes |
| RequestTransport.PromiseGetsItsAnswer | packages/host-api/src/transport.ts:524-543 | a settled promise holds the only answer posted for its id; it is `Unsupported` exactly for an address the host does not know, `MalformedFrame` exactly for a handled one and an undecodable payload, never `Cancelled`; a value is what its handler returned, and a host failure comes of one that threw or returned what does not encode |
| RequestTransport.WorkShrinks | packages/host-api/src/transport.ts:486-649 | without new calls or aborts every step decreases the outstanding work |
| RequestTransport.UnheardPends | packages/host-api/src/transport.ts:195-236 | a call to an address that is known but not handled, or to a host without any frame listener, pends at all times until its caller aborts it |
| RequestTransport.NobodyLeftWaiting | packages/host-api/src/transport.ts:195-236 | when no work is outstanding a promise is pending exactly if nobody listens at its address and its caller has not aborted it |
| SubscriptionMux.SubscriptionTable.Join | packages/host-api/src/transport.ts:651-698 | subscribing joins the live subscription of the key or opens one, and the listener is registered |
| SubscriptionMux.SubscriptionTable.Leave | packages/host-api/src/transport.ts:665-675 | unsubscribing removes the callback and stops the subscription with its last listener |
| SubscriptionMux.SubscriptionTable.Receive | packages/host-api/src/transport.ts:316-358 | an item goes to every listener, an interrupt tears the entry down, is latched and emitted; a dead subscription hears nothing |
| SubscriptionMux.NextKeepsInv | packages/host-api/src/transport.ts:303-379 | every step of client and host, with handlers that come and go, keeps the multiplexing, latching and agreement invariants |
| SubscriptionMux.OneSubscriptionPerKey | packages/host-api/src/transport.ts:682-684 | two live subscriptions of one key are the same, uninterrupted and listened to |
| SubscriptionMux.StartsAreAccountedFor | packages/host-api/src/transport.ts:360-378 | starts equal stops plus interrupts plus live entries, as sets and in number, and no frame is posted twice |
| SubscriptionMux.EndsAgreeWhenQuiet | packages/host-api/src/transport.ts:732-806 | with nothing on the wire each live subscription of the client is served by a handler or orphaned, never both; every other start that a handler was called for has been cleaned up once |
| SubscriptionMux.QuietServedIff | packages/host-api/src/transport.ts:732-806 | with nothing on the wire the host serves a live subscription exactly when its method had a handler when the start came and that handler has not been removed since |
| SubscriptionMux.HandlingStep | packages/host-api/src/transport.ts:732-806 | a method is handled from the registration of its handler to its removal |
| SubscriptionMux.ServedStep | packages/host-api/src/transport.ts:732-806 | a start is served from the step in which its handler takes it to its stop, its end or the removal of the handler |
| SubscriptionMux.UnheardStaysSilent | packages/host-api/src/transport.ts:214-236 | a subscription whose start no handler took and no protocol error answered never hears an item or an interrupt, and stays live until its last listener leaves |
| SubscriptionMux.SilentStart | packages/host-api/src/transport.ts:214-236 | a concrete run: a method this build knows without a handler, nothing on the wire, a live subscription and a host that serves nothing |
| SubscriptionMux.InterruptToldOnce | packages/host-api/src/transport.ts:688-696 | each interrupt listener is called once with the interrupt whether attached before or after it, and never without one |
| SubscriptionMux.InterruptIsFinal | packages/host-api/src/transport.ts:339-355 | an interrupted subscription keeps its reason and never listens again |
| SubscriptionMux.EventsArriveInOrder | packages/host-api/src/transport.ts:700-800 | over every run what the client has received and what is on its way is what the host has said, in order: per start the items and the interrupt of its handler, `Unsupported` for an unknown method, `MalformedFrame` for an undecodable payload or nothing; per item that does not encode a `HostFailure` |
| SubscriptionMux.LatchedIff | packages/host-api/src/transport.ts:316-379 | over every run a subscription is latched with a reason exactly if an interrupt with that reason reached it while it was live |
| SubscriptionMux.StartsNameTheirKey | packages/host-api/src/transport.ts:303-379 | every start on the wire asks for the method and payload that its listeners subscribed to |
| SubscriptionMux.ListingStep | packages/host-api/src/transport.ts:655-686 | subscribing lists the callback once more for its key, unsubscribing takes it off altogether, and neither touches another |
| SubscriptionMux.ListenerHearsEverything | packages/host-api/src/transport.ts:328-338 | while joined, a listener hears each item the host sends on the subscription, in order and once, up to what is still on the wire |
| SubscriptionReplay.ReplayProvider.OnMessage | packages/host-substrate-chain-connection/src/subscriptionReplayProvider.ts:53-94 | responses are registered, suppressed or passed on, error replies passed on, and notifications rewritten as the specification says |
| SubscriptionReplay.ReplayProvider.Send | packages/host-substrate-chain-connection/src/subscriptionReplayProvider.ts:114-131 | subscribes are recorded, and an unsubscribe names the current server id |
| SubscriptionReplay.ReplayProvider.OnReconnect | packages/host-substrate-chain-connection/src/subscriptionReplayProvider.ts:96-111 | every confirmed subscription is re-sent once, in some order, and nothing else |
| SubscriptionReplay.ReplayProvider.Disconnect | packages/host-substrate-chain-connection/src/subscriptionReplayProvider.ts:132-138 | all three tables are empty afterwards |
| SubscriptionReplay.StepKeepsGood | packages/host-substrate-chain-connection/src/subscriptionReplayProvider.ts:30-140 | every orderly step keeps active and reverse maps mutual inverses, matched with the server, every renewal on the wire once and every event on the way translatable |
| SubscriptionReplay.DropKeepsGood | packages/host-substrate-chain-connection/src/subscriptionReplayProvider.ts:41-51 | unsubscribing keeps all that exactly when no renewal of that subscription is on the wire and no event of it is on the way under an id the consumer does not know |
| SubscriptionReplay.ReconnectMakesGood | packages/host-substrate-chain-connection/src/subscriptionReplayProvider.ts:96-111 | a reconnect keeps or restores all that, also after refused renewals, exactly when no renewal of an earlier one is still on the wire |
| SubscriptionReplay.EmitKeepsGood | packages/host-substrate-chain-connection/src/subscriptionReplayProvider.ts:79-91 | an event the server sends keeps all that exactly when it is not of a renamed subscription the consumer has left |
| SubscriptionReplay.DroppedRenewalLeaks | packages/host-substrate-chain-connection/src/subscriptionReplayProvider.ts:41-51 | an unsubscribe over a renewal leaves a server subscription nobody owns: the consumer sees a second answer and events under an id it never held |
| SubscriptionReplay.DroppedRenewalRun | packages/host-substrate-chain-connection/src/subscriptionReplayProvider.ts:41-51 | a concrete run from the start with all that the consumer sees: subscribe, reconnect, unsubscribe, answer, event |
| SubscriptionReplay.DoubleRenewalLeaks | packages/host-substrate-chain-connection/src/subscriptionReplayProvider.ts:96-111 | after a reconnect over an unanswered renewal the first answer is suppressed and the second shown, and its subscription is nobody's |
| SubscriptionReplay.DoubleRenewalRun | packages/host-substrate-chain-connection/src/subscriptionReplayProvider.ts:96-111 | a concrete run from the start with two reconnects and both answers |
| SubscriptionReplay.DropNamesIff | packages/host-substrate-chain-connection/src/subscriptionReplayProvider.ts:41-45 | what is on the way when the consumer unsubscribes reaches it under the ids it knows exactly when nothing of the subscription is on the way under a new id |
| SubscriptionReplay.LateEventRun | packages/host-substrate-chain-connection/src/subscriptionReplayProvider.ts:41-45 | a concrete run from the start in which an event of a renewed subscription arrives after the unsubscribe, under the new id |
| SubscriptionReplay.RefusedRenewalSeen | packages/host-substrate-chain-connection/src/subscriptionReplayProvider.ts:53-94 | a refused renewal reaches the consumer as a second answer and leaves its subscription without events; the next reconnect makes everything good again exactly if no other renewal is on the wire |
| SubscriptionReplay.StepSimulates | packages/host-substrate-chain-connection/src/subscriptionReplayProvider.ts:53-131 | each orderly step looks to the consumer like a step of a provider that never reconnects |
| SubscriptionReplay.StepInvisibleIff | packages/host-substrate-chain-connection/src/subscriptionReplayProvider.ts:30-140 | a step looks like that and keeps all of the above exactly when it is orderly: no unsubscribe over a renewal or a renamed event of the same subscription, no later event of a renamed one, no refused renewal, no reconnect before the renewals of the last are answered |
| SubscriptionReplay.RunInvisibleIff | packages/host-substrate-chain-connection/src/subscriptionReplayProvider.ts:30-140 | over whole runs, every step does exactly when every step is orderly |
| SubscriptionReplay.ReconnectsAreInvisible | packages/host-substrate-chain-connection/src/subscriptionReplayProvider.ts:30-140 | over every orderly run the consumer sees what a provider that never reconnects would show, one that an interruption robs only of what was on its way |
| SubscriptionReplay.InvisibleFromTheStart | packages/host-substrate-chain-connection/src/subscriptionReplayProvider.ts:30-140 | in particular over every orderly run of a new provider |
| SubscriptionReplay.OnlyConfirmedResent | packages/host-substrate-chain-connection/src/subscriptionReplayProvider.ts:96-111 | a reconnect puts exactly the confirmed subscriptions on the wire, once each and with the first payload |
| SubscriptionReplay.OnlyIdsAreTranslated | packages/host-substrate-chain-connection/src/subscriptionReplayProvider.ts:60-135 | nothing but subscription ids is translated: an unsubscribe goes out under the id whose events come in under the one the consumer named, everything else passes unchanged, and only the answer to a renewal is kept back |
| RateLimiter.QueueLimiter.RefillTokens | packages/host-container/src/rateLimiter.ts:45-54 | tokens are refilled only after a full interval, and the refill time moves only then |
| RateLimiter.QueueLimiter.DrainTokens | packages/host-container/src/rateLimiter.ts:60-74 | the loop starts as many queued tasks as tokens allow, from the front |
| RateLimiter.QueueLimiter.OnTimer | packages/host-container/src/rateLimiter.ts:56-79 | a tick refills, drains and re-arms the timer exactly while tasks are queued |
| RateLimiter.QueueLimiter.ScheduleTask | packages/host-container/src/rateLimiter.ts:86-114 | a task runs at once, is queued with a timer pending, or is dropped at the cap |
| RateLimiter.QueueLimiter.DestroyAll | packages/host-container/src/rateLimiter.ts:116-125 | the queue is rejected and the timer cleared |
| RateLimiter.NextKeepsPaced | packages/host-container/src/rateLimiter.ts:37-167 | every event of either strategy keeps starts bounded per refill period |
| RateLimiter.RateBound | packages/host-container/src/rateLimiter.ts:45-79 | at most (k + 1) times the maximum tasks start in any half-open window of k intervals |
| RateLimiter.RunsAreRateBounded | packages/host-container/src/rateLimiter.ts:37-167 | so in every run of either strategy with a monotone clock |
| RateLimiter.BoundIsAttainedIff | packages/host-container/src/rateLimiter.ts:45-54 | for every positive limit and number of intervals some run attains the bound, so it cannot be lowered, exactly when the interval is longer than one tick of the clock |
| RateLimiter.QueueRunsAreAccounted | packages/host-container/src/rateLimiter.ts:56-125 | in every run tasks start in scheduling order, the queue stays within its cap, a timer is set exactly while something is queued, and each task is run, dropped or still queued, only one of them |
| RateLimiter.AdmittedIff | packages/host-container/src/rateLimiter.ts:86-114 | in every run a scheduled task starts at once exactly if nothing waits and fewer than the maximum have started since the last refill, or one is due; else it is queued last, or rejected if the queue is full |
| RateLimiter.DropAdmittedIff | packages/host-container/src/rateLimiter.ts:130-160 | in every run of the drop strategy a task starts exactly if fewer than the maximum have started since the last refill, or one is due, and is rejected otherwise |
| RateLimiter.TickStarts | packages/host-container/src/rateLimiter.ts:56-79 | in every run a tick starts queued tasks from the front, as many as may start until the next refill, and is set again exactly if any are left |
| RateLimiter.TickMakesProgress | packages/host-container/src/rateLimiter.ts:56-79 | a tick a full interval after the last refill starts queued tasks up to the maximum |
| TaskPool.AsyncTaskPool.Process | packages/host-papp/src/helpers/createAsyncTaskPool.ts:111-135 | the loop starts the first queued task of the pool if it has a free slot, and nothing else |
| TaskPool.AsyncTaskPool.CallTask | packages/host-papp/src/helpers/createAsyncTaskPool.ts:47-72 | a signal that has fired rejects the task without queueing it; otherwise it is queued, listens to its signal, and its pool is processed |
| TaskPool.AsyncTaskPool.AbortTask | packages/host-papp/src/helpers/createAsyncTaskPool.ts:94-109 | the listener of one task takes it from queue, slot and timer, rejects it, processes its pool and announces the pool if it is done |
| TaskPool.AsyncTaskPool.OnSignal | packages/host-papp/src/helpers/createAsyncTaskPool.ts:66-66 | a signal that fires runs the listeners of all its tasks, in calling order, each to its end |
| TaskPool.AsyncTaskPool.OnError | packages/host-papp/src/helpers/createAsyncTaskPool.ts:137-173 | a failure retries while the retry count allows and the signal of the task, which others may share, has not fired; after the last try it rejects an unsettled task with that error, and nothing else changes its outcome |
| TaskPool.AsyncTaskPool.OnSuccess | packages/host-papp/src/helpers/createAsyncTaskPool.ts:162-168 | a success resolves a task that is not settled yet, and frees the slot |
| TaskPool.AsyncTaskPool.OnRetryTimer | packages/host-papp/src/helpers/createAsyncTaskPool.ts:149-152 | a retry queues the task again and processes its pool |
| TaskPool.AsyncTaskPool.SettlePool | packages/host-papp/src/helpers/createAsyncTaskPool.ts:74-89 | a call of settle is recorded, resolved at once only if no pool has anything queued or active |
| TaskPool.NextKeepsInv | packages/host-papp/src/helpers/createAsyncTaskPool.ts:47-186 | every event keeps the pool invariant, and with it that a task has been dropped exactly when its signal has fired |
| TaskPool.ReachableStates | packages/host-papp/src/helpers/createAsyncTaskPool.ts:111-177 | in every reachable state a pool runs at most poolSize tasks, queues only when full, starts no task more than retryCount + 1 times, and a promise is pending exactly while its task is queued, active or waiting |
| TaskPool.OutcomesAreFinal | packages/host-papp/src/helpers/createAsyncTaskPool.ts:91-109 | a settled promise keeps its outcome whatever happens, and a signal that fired stays fired |
| TaskPool.OutcomeIff | packages/host-papp/src/helpers/createAsyncTaskPool.ts:91-173 | over every run a task is resolved exactly if it succeeded while unsettled, rejected with an error exactly if it failed with it while unsettled, its signal not fired and its last retry used, and aborted exactly if its signal fired while it was unsettled or before it was called |
| TaskPool.StartsAfterSignalIff | packages/host-papp/src/helpers/createAsyncTaskPool.ts:94-135 | over every run, an event starts a task after its own signal fired exactly when a signal fires while one of its tasks is active and a later one of the same pool is queued with no more tasks of other signals before it than slots that earlier active tasks of the signal free |
| TaskPool.SharedSignalStarts | packages/host-papp/src/helpers/createAsyncTaskPool.ts:94-135 | a concrete run: with one slot, two tasks share a signal, and aborting the first starts the second after the signal fired |
| TaskPool.NoStall | packages/host-papp/src/helpers/createAsyncTaskPool.ts:111-177 | an unsettled task means something of its pool runs or waits on a timer |
| TaskPool.AnnouncedMeansSettled | packages/host-papp/src/helpers/createAsyncTaskPool.ts:179-186 | a pool announced as settled has all promises settled exactly when no retry timer of it is pending |
| TaskPool.AnnouncedTooEarly | packages/host-papp/src/helpers/createAsyncTaskPool.ts:179-186 | a concrete pool announced as settled with a promise pending |
| TaskPool.SettlesIff | packages/host-papp/src/helpers/createAsyncTaskPool.ts:74-89 | a caller of settle that waits is answered by exactly the events that end a task of its pool, or run the abort listener of one, and leave nothing of the pool active or queued |
| TaskPool.SettleWaitsForItsPool | packages/host-papp/src/helpers/createAsyncTaskPool.ts:74-89 | until such an event a call of settle stays as it was answered: resolved exactly if no pool had anything queued or active when it was made |
| TaskPool.IdlePoolKeepsWaiting | packages/host-papp/src/helpers/createAsyncTaskPool.ts:75-75 | a concrete call of settle for an idle pool that waits because another pool is active |
| ConnectionPool.ConnectionTable.RawAcquire | packages/host-substrate-chain-connection/src/connectionPool.ts:121-149 | acquiring cancels the timer, counts, and returns the existing or a new client; a failing factory leaves the count as it was |
| ConnectionPool.ConnectionTable.Release | packages/host-substrate-chain-connection/src/connectionPool.ts:130-141 | the last release destroys at once or arms the timer |
| ConnectionPool.ConnectionTable.OnTimer | packages/host-substrate-chain-connection/src/connectionPool.ts:135-138 | a firing timer destroys the client of its chain |
| ConnectionPool.ConnectionTable.DestroyClient | packages/host-substrate-chain-connection/src/connectionPool.ts:108-119 | the timer is cancelled and the client, if any, destroyed once |
| ConnectionPool.ConnectionTable.IncrementRefs | packages/host-substrate-chain-connection/src/refCounter.ts:8-12 | the count of the key grows by one and is returned |
| ConnectionPool.ConnectionTable.DecrementRefs | packages/host-substrate-chain-connection/src/refCounter.ts:13-20 | the count shrinks by one but not below zero and is returned |
| ConnectionPool.NextKeepsInv | packages/host-substrate-chain-connection/src/connectionPool.ts:67-149 | with a delay that is not negative every step keeps the pool invariant |
| ConnectionPool.ClientLifetime | packages/host-substrate-chain-connection/src/connectionPool.ts:67-149 | the count equals the outstanding locks; a client exists exactly while it is locked or waits out its delay; only an unlocked chain waits; no client is destroyed twice |
| ConnectionPool.HeldClientsSurviveIff | packages/host-substrate-chain-connection/src/connectionPool.ts:121-141 | no locked client is ever destroyed, exactly when the delay is not negative |
| ConnectionPool.NegativeDelayDestroys | packages/host-substrate-chain-connection/src/connectionPool.ts:123-139 | with a negative delay a run destroys a client that is locked again |
| ConnectionPool.ReleaseThenReacquire | packages/host-substrate-chain-connection/src/connectionPool.ts:121-139 | unlocking last and locking again gives the same client with a delay, and without one destroys it and makes another |
| ConnectionPool.ReacquireKeepsClient | packages/host-substrate-chain-connection/src/connectionPool.ts:121-139 | over any run with a positive delay, locking lends the client the chain had before exactly when its destruction timer has not fired in between |
| ConnectionPool.ConsumerReleasesOnce | packages/host-substrate-chain-connection/src/connectionPool.ts:187-218 | however often a consumer is torn down or disconnected, in whatever order with its acquisition, its lock goes back once |
| ConnectionPool.LockStep | packages/host-substrate-chain-connection/src/connectionPool.ts:121-149 | a lock is outstanding from the call that lends it, which succeeds exactly if the client exists or can be built, until it is given back |
| ConnectionPool.ConsumerStep | packages/host-substrate-chain-connection/src/connectionPool.ts:187-218 | a consumer waits for its lock and then holds it; torn down before that it gives it back when it resolves, torn down or disconnected after that at once |
| ConnectionPool.ConsumersGrow | packages/host-substrate-chain-connection/src/connectionPool.ts:187-211 | a new consumer waits for a new lock exactly if acquiring the chain succeeds |
| BranchedProvider.SharedProvider.Open | packages/host-substrate-chain-connection/src/branchedProvider.ts:23-32 | a branch opens the connection if there is none and joins it |
| BranchedProvider.SharedProvider.Close | packages/host-substrate-chain-connection/src/branchedProvider.ts:37-45 | a disconnect gives up one reference, closing the connection with the last |
| BranchedProvider.DisconnectKeepsIff | packages/host-substrate-chain-connection/src/branchedProvider.ts:37-45 | the count stays the number of joined branches exactly when the branch had not disconnected before, or nobody is left |
| BranchedProvider.SecondDisconnectCutsOff | packages/host-substrate-chain-connection/src/branchedProvider.ts:37-45 | a second disconnect of a branch closes the connection under the only other one |
| BranchedProvider.JoinedBranchKeepsItsConnection | packages/host-substrate-chain-connection/src/branchedProvider.ts:23-45 | over every run in which branches disconnect once, a joined branch keeps one connection, hears every message that arrives, and whatever is sent goes out on that connection, in order |
| BranchedProvider.JoiningBranch | packages/host-substrate-chain-connection/src/branchedProvider.ts:19-30 | a branch that joins takes the connection there is, or opens one that was not used before, and hears exactly what arrives from then on |
| BranchedProvider.OrderlyRunsKeepInv | packages/host-substrate-chain-connection/src/branchedProvider.ts:19-45 | from the start, over every run in which branches disconnect once, there is a connection exactly while somebody is joined and every other one has been closed once |
| ChainRefs.ChainTable.Acquire | packages/host-container/src/chainConnectionManager.ts:106-122 | a chain is counted, or created with count one if supported |
| ChainRefs.ChainTable.Release | packages/host-container/src/chainConnectionManager.ts:228-235 | the count falls, and the client is torn down with the last reference |
| ChainRefs.ChainTable.Follow | packages/host-container/src/chainConnectionManager.ts:132-134 | a follow gets a fresh id and is recorded under its chain |
| ChainRefs.ChainTable.CloseFollow | packages/host-container/src/createContainer.ts:622-625 | the cleanup drops the follow and then releases the chain |
| ChainRefs.ChainTable.BroadcastReturned | packages/host-container/src/createContainer.ts:878-896 | an operation id keeps the reference as a live broadcast, an empty or missing one releases it |
| ChainRefs.ChainTable.StopRequested | packages/host-container/src/createContainer.ts:908-914 | a stop is forwarded exactly when it matches a live broadcast |
| ChainRefs.HandlersUseTheTable | packages/host-container/src/createContainer.ts:861-925 | each handler step moves chains and live broadcasts as the table of the container does |
| ChainRefs.NextKeepsInv | packages/host-container/src/createContainer.ts:602-925 | every handler step keeps the references conserved |
| ChainRefs.ReferencesConserved | packages/host-container/src/createContainer.ts:602-925 | the count of a chain is its invocations in progress plus its live broadcasts plus operation ids that came back while live; it is connected exactly while that is positive |
| ChainRefs.HeldClientsLive | packages/host-container/src/createContainer.ts:882-890 | every invocation and live broadcast runs on the client of its chain, which has not been destroyed; no client is destroyed twice |
| ChainRefs.HolderStep | packages/host-container/src/createContainer.ts:200-420 | in every step, an invocation holds its chain from its start, if the chain is supported or connected, to its end, and a stop does for a live broadcast |
| ChainRefs.LiveIff | packages/host-container/src/createContainer.ts:380-420 | over every run a broadcast is live exactly if one came back with that operation id, not an empty one, and no stop of it was asked for since |
| ChainRefs.FollowStep | packages/host-container/src/chainConnectionManager.ts:124-184 | a follow is open on its chain from its start until it is closed or dies, while the chain is connected |
| ChainRefs.EachFollowsItsOwn | packages/host-container/src/chainConnectionManager.ts:132-134 | in every run no two follow subscriptions in progress share a follow id |
| ChainRefs.QuietChainsAreClosed | packages/host-container/src/createContainer.ts:861-925 | with nothing in progress and no live broadcast a chain is connected exactly when an operation id was repeated on it |
| ChainRefs.RepeatPinsChain | packages/host-container/src/createContainer.ts:887-889 | a repeated operation id keeps its chain connected for ever |
| ChainRefs.RepeatedOperationId | packages/host-container/src/createContainer.ts:887-889 | a concrete run from the start: two broadcasts that return one operation id, and its stop, leave the chain connected with nobody on it |
| ChainRefs.RepeatsGrow | packages/host-container/src/createContainer.ts:887-889 | which happens exactly when a broadcast returns an id that is live on its chain |
| ChainRefs.DuplicateStopChangesNothing | packages/host-container/src/createContainer.ts:908-914 | duplicate and unknown stops change nothing |
| ChainRefs.ClosedWithoutOpenFollows | packages/host-container/src/chainConnectionManager.ts:228-235 | when the last reference goes, no follow is open but the one being closed |
| RecoveryWindow.ChainHead.Start | packages/host-container/src/chainConnectionManager.ts:159-172 | a fresh follow ends the window and runs the queued operations in order |
| RecoveryWindow.ChainHead.Operate | packages/host-container/src/chainConnectionManager.ts:190-220 | an operation runs on the oldest follow, waits in the window, or is refused |
| RecoveryWindow.ChainHead.Die | packages/host-container/src/chainConnectionManager.ts:140-157 | a follow that ended with a stop opens the window |
| RecoveryWindow.ChainHead.TearDown | packages/host-container/src/chainConnectionManager.ts:85-94 | all follows and the window are dropped and every queued operation rejected |
| RecoveryWindow.NextKeepsInv | packages/host-container/src/chainConnectionManager.ts:105-235 | every step keeps the queue equal to the unsettled operations and the order of what ran |
| RecoveryWindow.SettlesOnce | packages/host-container/src/chainConnectionManager.ts:159-220 | an operation settles once: run, refused, expired or disposed |
| RecoveryWindow.OutcomeIff | packages/host-container/src/chainConnectionManager.ts:124-220 | over every run an operation runs on a follow exactly if that was the oldest active one when it was issued, or the one that started while it waited; it is refused, expired or disposed of exactly by the events that say so |
| RecoveryWindow.RanIff | packages/host-container/src/chainConnectionManager.ts:124-220 | over every run a follow has been sent exactly the operations whose promise was handed to it, in the order they were issued |
| RecoveryWindow.ActiveStep | packages/host-container/src/chainConnectionManager.ts:96-188 | a follow is active from its start until it stops, dies or the chain is torn down |
| RecoveryWindow.FollowTakesTheQueue | packages/host-container/src/chainConnectionManager.ts:161-172 | the next follow runs everything that waits, and operations reach the client in the order issued |
| RecoveryWindow.HeldIff | packages/host-container/src/chainConnectionManager.ts:140-206 | over the events of a run: an operation is held exactly when nothing is followed and some follow stopped no longer ago than the timeout, since when none started or stopped, the chain was not torn down and no operation came too late |
| RecoveryWindow.HeldIffSteady | packages/host-container/src/chainConnectionManager.ts:140-206 | with a clock that never goes back, exactly when nothing is followed and the last stop since the last start or teardown is no older than the timeout |
| RecoveryWindow.GuardedNeverHeld | packages/host-container/src/createContainer.ts:637-643 | the container asks for an active follow before issuing an operation, so none of its operations is ever held |
| HandlerSlot.RequestSlot.Register | packages/host-container/src/createContainer.ts:213-215 | registering replaces the handler and captures a fresh version |
| HandlerSlot.RequestSlot.Withdraw | packages/host-container/src/createContainer.ts:216-220 | an undo takes effect only for the version it captured |
| HandlerSlot.SlotServesLatest | packages/host-container/src/createContainer.ts:195-222 | over every history the slot serves the latest registration until that one is undone; older or repeated undos do nothing and no earlier handler comes back |
| Scale.CompactRoundTrip | packages/host-api/src/protocol/messageCodec.ts:69-88 | compact integers below 2^536 decode to what was encoded in all four modes, and the first byte gives the length |
| Scale.CompactLayout | packages/host-api/src/protocol/messageCodec.ts:69-88 | the bytes of a compact integer in each of the four modes, the least significant first, with the mode in the low two bits of the first |
| Scale.StrRoundTrip | packages/host-api/src/protocol/messageCodec.ts:59-61 | a length-prefixed string is read back with what follows it |
| FrameCodec.FillFrame | packages/host-api/src/protocol/messageCodec.ts:54-67 | filling the buffer in place gives the bytes of the specification or its error |
| FrameCodec.SetBytes | packages/host-api/src/protocol/messageCodec.ts:61-65 | setting bytes at an offset replaces exactly that stretch |
| FrameCodec.PrefixLengthAgrees | packages/host-api/src/protocol/messageCodec.ts:69-83 | the prefix length read from a frame is the length of the encoded id length |
| FrameCodec.FrameRoundTrip | packages/host-api/src/protocol/messageCodec.ts:54-98 | a frame encodes exactly when its three header fields are bytes, and then decodes to itself |
| FrameCodec.FrameLayout | packages/host-api/src/protocol/messageCodec.ts:54-98 | the bytes of a frame: the id behind its length, then trait, method and message type, one byte each, then the payload |
| FrameCodec.DecodesIffParses | packages/host-api/src/protocol/messageCodec.ts:85-98 | decoding accepts exactly the byte strings that are a length prefix, that many id bytes, a header and a payload, and gives that frame |
| FrameCodec.ReencodesIffCanonical | packages/host-api/src/protocol/messageCodec.ts:85-98 | a decoded frame encodes to the same bytes exactly when its id length was written canonically |
| FrameCodec.NonCanonicalAccepted | packages/host-api/src/protocol/messageCodec.ts:70-88 | a concrete frame with a longer prefix than needed is accepted |
| FrameCodec.ProtocolErrorRoundTrip | packages/host-api/src/protocol/messageCodec.ts:101-118 | the decoder recognises exactly what the encoder writes; the payloads it calls malformed are exactly the empty, the single zero, and those of the known version and variant with a wrong length |
| CallError.WireErrorRoundTrip | packages/host-api/src/protocol/callError.ts:24-36 | wire errors with their pinned discriminants decode to themselves, and encode exactly when their version is known |
| CallError.DecodesIff | packages/host-api/src/protocol/callError.ts:24-36 | which byte strings decode to which wire error, with the pinned discriminants |
| CallError.ResponseRoundTrip | packages/host-api/src/protocol/callError.ts:98-131 | every response that encodes decodes to itself after retagging; without it exactly when it is no failure or of the first version |
| CallError.ResponseLayout | packages/host-api/src/protocol/callError.ts:98-131 | the bytes of every response: result variant, error kind and version in front of the value |
| CallError.InterruptRoundTrip | packages/host-api/src/protocol/callError.ts:138-164 | an interrupt keeps its reason; it keeps its version after retagging exactly when it has a reason or is of the first version |
| CallError.InterruptLayout | packages/host-api/src/protocol/callError.ts:138-164 | the bytes of every interrupt: a zero for a clean end, else a one and the error laid out as in a response |
| CallError.ReasonsTellApart | packages/host-api/src/protocol/callError.ts:144-152 | a domain reason differs on the wire from a clean end exactly when its value is not `undefined` |
| FileLoader.ChunksJoin | packages/handoff-service/src/fileLoader/fileLoader.ts:23-29 | the chunks are the ceiling of length over size in number, all but the last of exactly that size, none empty or too long, and concatenate to the data |
| FileLoader.SplitIntoChunks | packages/handoff-service/src/fileLoader/fileLoader.ts:23-29 | the loop computes `Chunks` |
| FileLoader.MetadataRoundTrip | packages/handoff-service/src/codec.ts:8-11 | metadata decodes to itself, its size taken modulo 2^64 |
| FileLoader.MetadataLayout | packages/handoff-service/src/codec.ts:8-11 | the bytes of the metadata: eight of the size, the least significant first, the number of chunks, then each hash behind its length |
| FileLoader.BlobsAre | packages/handoff-service/src/fileLoader/fileLoader.ts:43-93 | blob `i` is chunk `i` sealed under its own nonce, and the last blob is the sealed metadata that names the hashes of the others |
| FileLoader.UploadFile | packages/handoff-service/src/fileLoader/fileLoader.ts:43-83 | the loop submits the sealed chunks in order and then the metadata, stopping at the first refusal |
| FileLoader.ClaimChunks | packages/handoff-service/src/fileLoader/fileLoader.ts:131-146 | the loop claims and opens the parts in order, stopping at the first failure |
| FileLoader.DownloadFile | packages/handoff-service/src/fileLoader/fileLoader.ts:102-158 | the method computes `Download`, with each of its errors |
| FileLoader.DownloadOkIff | packages/handoff-service/src/fileLoader/fileLoader.ts:102-158 | whatever the pool holds, a download gives data exactly if the metadata opens and decodes, every chunk is found once and opens, and their contents are that data and as long as the metadata says |
| FileLoader.ClaimsStopAt | packages/handoff-service/src/fileLoader/fileLoader.ts:127-148 | claims end at the first that is not found or does not open, with its error, and evict what was claimed up to there |
| FileLoader.DownloadReturnsUpload | packages/handoff-service/src/fileLoader/fileLoader.ts:43-158 | from a pool that evicts on claim, a download returns exactly the uploaded data if no two of the uploaded blobs have the same hash, and fails otherwise; afterwards nothing of the file is in the pool |
| FileLoader.UploadThenDownload | packages/handoff-service/src/fileLoader/fileLoader.ts:43-158 | an upload succeeds exactly when every submission is taken, and its identifier can be downloaded once |
| FileLoader.RefusedUploadLeaves | packages/handoff-service/src/fileLoader/fileLoader.ts:43-93 | an upload that is refused leaves in the pool what was accepted before, and nothing else of it |

## Left out

- Identifiers: ids, tokens and server subscription ids are numbered in the order they are drawn, which stands for their
  freshness; uniqueness across restarts is assumed.
- Size oracle: whether messages fit a statement is an arbitrary function, which may change where the code re-evaluates
  it; statement bodies, their codecs, proofs and encryption are not modelled.
- Re-entrancy: callbacks that call back into the same object while it runs (a subscriber submitting during delivery,
  `schedule` inside `execute`, a stop while a subscription handler runs) are excluded.
- Delivery of peer requests to session subscribers, their buffering, `waitForRequestMessage` and the store
  subscription: only their effect on the reducer is modelled.
- Init retries: a failing query is an event of its own; how often it is retried and the delays are not modelled.
- AccountFull rejections: their reported minimum enters as a floor raised at any time, the quota itself is not modelled.
- ExpiryAllocator.NextExpiryIsLeast: clocks of 2^64 seconds or more are excluded.
- ResponseChannel.AnsweredIff: disposal of a session is not modelled on the response channel.
- SubscriptionReplay.ReconnectsAreInvisible: assumes server ids fresh across reconnects, consumer request ids unique,
  and a transport that sends again whatever was not answered; a response is decided and delivered in one step, what is
  on its way to the layer is lost with the connection, and the consumer unsubscribes only what is confirmed. The
  classification of RPC method names is not modelled.
- Delays of the rate limiter and the task pool: timers fire at any time after they are set; a task function that throws
  at once counts as one that fails right after it started; the tasks active in a pool are a set.
- The handshake, the version check before each frame, several handlers for one address, listeners that throw and
  responses the caller cannot decode are not modelled.
- RequestTransport.PromiseGetsItsAnswer: one address, whose handler is there for the whole run or never; the protocol
  error of an unknown address is represented by its meaning, its bytes are in `FrameCodec`.
- SubscriptionMux.EndsAgreeWhenQuiet: a handler that throws while it starts, and two handlers for one method at a time,
  are not modelled.
- SessionStartup.EarlyAnswerIff: aborts, failed submissions and capacity changes are not among the events of a starting
  session, and malformed requests are dropped without an error reply.
- FrameCodec.FrameRoundTrip: a request id is its UTF-8 bytes; replacement of invalid UTF-8 and removal of a byte order
  mark by the decoder are not modelled.
- CallError.ResponseRoundTrip: business values are byte strings in the encoding of their version.
- ConnectionPool: `resolveApi` and its caches, connection status, and pausing or rebuilding transports are left out.
- ChainRefs: disposal of the whole manager is left out; event conversion is declarative.
- FileLoader.DownloadReturnsUpload: encryption and hash are functions of which only decrypt-after-encrypt and the hash
  length are assumed; signatures and claims by others are left out, as is progress reporting.
- Cryptography, user interface, webview and iframe providers, sandboxed scripts and the method tables of the protocol
  are not part of this model.

# Verified model of nesbus and goosetyped

This project models the stateful cores of the `nesbus` package, an Azure Service Bus layer with a vendored AMQP
client, and of the schema builder of `goosetyped`. Every component comes in two parts: a specification (states,
events, steps and runs over them) whose lemmas speak about all runs, and a class whose methods change fields the way
the source does and are proved to take exactly the steps of the specification.

| component | files |
|---|---|
| streaming receiver: credit, handlers, detach and close | StreamingProtocol.dfy, StreamingLimit.dfy, StreamingClose.dfy, StreamingReconnect.dfy, StreamingCredit.dfy, MessageReceiver.dfy |
| batching receiver: one call after the other on a link | BatchProtocol.dfy, BatchOutcome.dfy, BatchingReceiver.dfy |
| settlement promises, lock renewal timers | Dispositions.dfy, LockRenewal.dfy |
| provisioning of queues, topics, subscriptions and rules | Provisioning.dfy, ProvisioningSafety.dfy, ProvisioningCache.dfy, ProvisioningReadOnly.dfy, ProvisioningContents.dfy, RuleInterleaving.dfy, SbConfigurator.dfy |
| order of route commits | RouteServer.dfy, SbServer.dfy |
| retry with back-off | BackoffRetry.dfy, BackoffOutcome.dfy, BackoffClone.dfy, BackoffDelay.dfy |
| semaphore, expiring map, shared management clients, message conversion | Semaphore.dfy, ExpiringMap.dfy, EntityContexts.dfy, MessageConversion.dfy |
| schema build and deferred compilation | SchemaBuild.dfy, SchemaProps.dfy, SchemaContainer.dfy, ConnectionProtocol.dfy, ConnectionReady.dfy, ConnectionStore.dfy |

`dafny verify dfyconfig.toml` checks everything.

A protocol is cut at its awaits: what happens between two of them is one step, and the environment picks the next
step. An event that is not enabled changes nothing, so every sequence of events is a run. Links, the broker, timers,
random draws and the clock are events or parameters. An integer that the source keeps as a JavaScript number is
unbounded; delays and the limit of the semaphore are reals. OASIS AMQP 1.0 is followed in its sections 2.6.7 (flow
control), 2.6.10 (draining), 3.4 (outcomes) and 3.2 (message format).

## Where the code does not keep its promise

Each of these is a lemma, with the exact condition beside it where there is one.

- Handlers of a lost link give their credit to the new one, so one reconnect doubles the concurrency
  (`ReconnectExceedsLimit`). After a reconnect the limit can be exceeded exactly when more handlers were in flight
  when the link opened than deliveries were lost on it (`ReconnectedLimitExceededExactly`).
- A message that arrives during a batch receive is collected exactly when the link does not drain (`CollectedExactly`,
  `DrainingIsReachable`); one that comes while it drains is lost (`LostWhileDraining`).
- A batch receive never settles once its final action has asked a link to drain that is gone, or is lost before it has
  drained: a pending call can settle exactly when its final action has not run or its link is open (`SettlesExactly`).
  A connection that goes down without an error is enough (`HangIsReachable`).
- The disposition map is right throughout a run exactly when no two settlements of one delivery overlap
  (`ExactExactlyWithoutOverlap`, `OverlapSpoilsExactly`): the first of them can only time out, and its timeout orphans
  the second (`OrphansExactly`, `OrphanOnlyTimesOut`, `TimeoutOrphansTheOther`).
- A message id that is delivered again can be renewed after a clear exactly when its earlier task is still busy, or
  armed if the time of the new delivery is already over (`ReuseRenewsExactly`, `ReuseIsReachable`).
- Deleting an entity does not evict it: it comes back exactly when it is not cached (`DeletedComesBackExactly`,
  `SomeRunRestoresExactly`).
- An entity shares its cache key with another exactly when a name holds a colon (`CollidesExactly`), and whichever is
  cached first keeps the other from being created (`CollidingIsNeverCreated`).
- Rules of one subscription that have the same name can be created twice (`SameNameCreatesTwiceExactly`).
- With a distort factor of 34 or more exponential delays need not grow (`ThirtyThree`), linear ones grow throughout
  only without jitter (`LinearGrowsExactly`), and the last retry has no delay at all (`LastRetryIsImmediate`).
- A fractional semaphore limit is exceeded (`LimitHoldsExactlyWhenIntegral`).
- Closing a connection drops the models that wait for it (`CloseDropsExactly`, `DroppedForever`), and a reconnect
  notifies nobody (`SilentReconnectLosesBase`); a run keeps every model exactly when neither happens with models
  waiting (`NeverLosesExactly`). Children of a dropped root fail for good (`ChildrenOfDroppedFail`).
- A class that declares a column of its base again gets the definition of the base (`DefinitionExactly`).
- Mixins that form a cycle miss columns of the one that is built first (`RingMisses`, `MutualMixinsMiss`).

Three more depend on when a continuation runs, which the modelled files do not settle:

- A close leaves a closed receiver in the cache exactly when the promise of `create` is pending, or an earlier close
  has left it there (`CloseDuringCreateLeavesCacheEntry`, `QuietCloseLeavesCacheEntry`, `CreateCanBePending`). Between
  the caching of the receiver and the end of `create` the source has only promise jobs (messageReceiver.ts:808-813,
  linkEntity.ts:157-182, streamingReceiver.ts:113-114), so this rests on a close that runs as a promise job between
  them. Without that window nothing is left in the cache (`NothingLeftWithoutWindow`).
- A batch receive runs its final action twice when a detach ends it between the creation of its link and the adding
  of its credit (`SecondFinalActionExactly`, `EarlyEndIsReachable`). Between the two the source has only promise jobs,
  as `_ensureTokenRenewal` (linkEntity.ts:157-182) awaits nothing, so this rests on treating that window as a step in
  which the connection may be lost. Without the window there is one final action (`OneFinalActionWithoutWindow`).
- The cleanup of the expiring map stops for good exactly when the last one on its way is granted the lock on an empty
  map (`StuckExactly`, `StuckForever`). That needs the callback of `_lockStore.acquire`
  (concurrentExpiringMap.ts:36-41) to run in a later step than the call (`StuckIsReachable`); if it runs at once, the
  map is never stuck (`AtOnceNeverStuck`). The lock is a library and not part of this model.

## Model

| member | source | states |
|---|---|---|
| `StreamingProtocol.OneDetachOneCreation` | packages/nesbus/src/atom-adapter/atom-client/src/core/messageReceiver.ts:758-834 | On every run at most one `onDetached` body and one link creation are in progress, wherever closes, drops and retries interleave. |
| `StreamingProtocol.CreditLaw` | packages/nesbus/src/atom-adapter/atom-client/src/core/messageReceiver.ts:328-544 | Credit + handlers in flight + deliveries that did not decode equals the handlers in flight when the link opened plus the credit granted in blocks, on every run. |
| `StreamingProtocol.WithinLimitOnFirstLink` | packages/nesbus/src/atom-adapter/atom-client/src/core/streamingReceiver.ts:87-95 | Before any reconnect, and with one `receive` call, never more than maxConcurrentCalls handlers are in flight. |
| `StreamingLimit.LimitExceededExactly` | packages/nesbus/src/atom-adapter/atom-client/src/core/messageReceiver.ts:328-544 | From any reachable open link, some run that stays on the link (deliveries, returns, throws, abandons, detaches, closes and drops in any order) exceeds maxConcurrentCalls if and only if its credit plus the handlers in flight already do. |
| `StreamingLimit.ReconnectedLimitExceededExactly` | packages/nesbus/src/atom-adapter/atom-client/src/core/messageReceiver.ts:937-955 | On a link that was granted one block of credit, that happens if and only if more handlers were in flight when it opened than deliveries were lost on it since. |
| `StreamingLimit.ReconnectExceedsLimit` | packages/nesbus/src/atom-adapter/atom-client/src/core/messageReceiver.ts:937-955 | A run with a single reconnect after which 2 x maxConcurrentCalls handlers are in flight: the limit does not survive a reconnect. |
| `StreamingClose.NoGrantAfterClose` | packages/nesbus/src/atom-adapter/atom-client/src/core/messageReceiver.ts:1005-1020 | Once `close` was called, no later step of the reconnect path grants a block of credit, wherever the call fell between awaits. |
| `StreamingClose.ClosedForGood` | packages/nesbus/src/atom-adapter/atom-client/src/core/messageReceiver.ts:937-955 | After `close`, a link that still finishes opening is closed and uncached by the next step of the continuation that opened it; in the end no link is open or referred to. |
| `StreamingClose.CloseDuringCreateLeavesCacheEntry` | packages/nesbus/src/atom-adapter/atom-client/src/core/streamingReceiver.ts:105-116 | A close, at any point of any run, can leave the closed receiver in the cache for good if and only if the promise of `create` is still pending or an earlier close has left it there. |
| `StreamingClose.QuietCloseLeavesCacheEntry` | packages/nesbus/src/atom-adapter/atom-client/src/core/streamingReceiver.ts:105-116 | With no detach body in progress, every continuation that comes to an end leaves it there in exactly these cases. |
| `StreamingClose.CreateCanBePending` | packages/nesbus/src/atom-adapter/atom-client/src/core/streamingReceiver.ts:105-116 | Where the continuation of `create` is a step of its own, a run reaches such a close: the first link is open and `create` has not resolved. |
| `StreamingClose.NothingLeftWithoutWindow` | packages/nesbus/src/atom-adapter/atom-client/src/core/streamingReceiver.ts:105-116 | On every run on which `create` resumes right after its link opened, a receiver that was closed is not in the cache once all continuations have ended. |
| `StreamingReconnect.RecoversExactly` | packages/nesbus/src/atom-adapter/atom-client/src/core/messageReceiver.ts:887-998 | From every reachable state without an open link, once `create` has opened its first link or a close was called, some continuation opens a link with its block of credit, with no further `receive`, if and only if the receiver was not closed and a detach body is on its way to a new link. |
| `StreamingReconnect.LostLinkRecoversExactly` | packages/nesbus/src/atom-adapter/atom-client/src/core/messageReceiver.ts:897-955 | A receiver whose link is lost, by a remote close or with its connection, is given a new link with its block of credit on some continuation if and only if the error is not fatal. |
| `StreamingReconnect.FatalClosesExactly` | packages/nesbus/src/atom-adapter/atom-client/src/core/messageReceiver.ts:897-998 | After a fatal error, whatever else goes on until the detach body has ended, the receiver has closed itself if and only if the connection was lost and handlers are registered. |
| `StreamingReconnect.FatalEnds` | packages/nesbus/src/atom-adapter/atom-client/src/core/messageReceiver.ts:897-998 | The detach body of a fatal error comes to its end. |
| `StreamingReconnect.RetriesExactly` | packages/nesbus/src/atom-adapter/atom-client/src/core/messageReceiver.ts:821-980 | A failed attempt to reconnect is followed by one that can succeed if and only if the retry goes on and the receiver was not closed; when it does not go on, the receiver closes itself exactly when handlers are registered. |
| `StreamingReconnect.FailedCreateIsOver` | packages/nesbus/src/atom-adapter/atom-client/src/core/streamingReceiver.ts:105-116 | A `create` that fails, at either of its two awaits, leaves no link, no cache entry and no continuation, on every continuation. |
| `StreamingReconnect.ThrowKeepsPlaceExactly` | packages/nesbus/src/atom-adapter/atom-client/src/core/messageReceiver.ts:461-514 | On every run a handler that throws keeps its place and its credit if and only if its message is to be abandoned, in peekLock mode, on an open link. |
| `StreamingCredit.LedgerExactly` | packages/nesbus/src/atom-adapter/atom-client/src/core/messageReceiver.ts:328-544 | From every reachable state and over every continuation, the handlers in flight are those that the events account for, and so is the credit while the receiver stays on its link: a delivery takes one whether it decodes or not, the end of a handler gives one back, only `receive` and a reconnect grant a block. |
| `MessageReceivers.MessageReceiver.Laws` | packages/nesbus/src/atom-adapter/atom-client/src/core/messageReceiver.ts:328-544 | After any sequence of the events below the fields keep the credit law, the limit on the first link, and one detach body. |
| `MessageReceivers.MessageReceiver.OnAmqpMessage` | packages/nesbus/src/atom-adapter/atom-client/src/core/messageReceiver.ts:328-343 | A message event is one more delivery of the run, decoded or not; in peekLock mode a closed link adds nothing. |
| `MessageReceivers.MessageReceiver.OnHandlerReturned` | packages/nesbus/src/atom-adapter/atom-client/src/core/messageReceiver.ts:510-514 | The finally block returns one credit to whichever link is current now, as the run says. |
| `MessageReceivers.MessageReceiver.OnHandlerThrew` | packages/nesbus/src/atom-adapter/atom-client/src/core/messageReceiver.ts:461-514 | A throwing handler keeps its credit while the message is abandoned, else gives it back at once. |
| `MessageReceivers.MessageReceiver.OnAbandonSettled` | packages/nesbus/src/atom-adapter/atom-client/src/core/messageReceiver.ts:491-514 | After the abandon the finally block returns the credit. |
| `MessageReceivers.MessageReceiver.Close` | packages/nesbus/src/atom-adapter/atom-client/src/core/messageReceiver.ts:1005-1020 | One more close of the run: flag, reference and cache entry go before the link is closed. |
| `MessageReceivers.MessageReceiver.OnAmqpClose` | packages/nesbus/src/atom-adapter/atom-client/src/core/messageReceiver.ts:612-658 | A remote close is one more event of the run; it starts a detach only when no link is being created. |
| `MessageReceivers.MessageReceiver.OnConnectionDropped` | packages/nesbus/src/atom-adapter/atom-client/src/clientEntityContext.ts:251-262 | A connection drop reaches the receiver through the cache, and only when it is not connecting. |
| `MessageReceivers.MessageReceiver.OnClaimNegotiated` | packages/nesbus/src/atom-adapter/atom-client/src/core/messageReceiver.ts:758-834 | The answer of the claim: the creation goes on, or fails. |
| `MessageReceivers.MessageReceiver.OnLinkAnswered` | packages/nesbus/src/atom-adapter/atom-client/src/core/messageReceiver.ts:785-834 | The answer of the broker: the link is there without credit, or the creation fails. |
| `MessageReceivers.MessageReceiver.OnResume` | packages/nesbus/src/atom-adapter/atom-client/src/core/messageReceiver.ts:887-998 | Every suspended continuation of `create` and `onDetached` takes the step of the run. |
| `MessageReceivers.MessageReceiver.Receive` | packages/nesbus/src/atom-adapter/atom-client/src/core/streamingReceiver.ts:87-95 | One more `receive` of the run: a block of credit on the current link. |
| `MessageReceivers.MessageReceiver.FinishHandler` | packages/nesbus/src/atom-adapter/atom-client/src/core/messageReceiver.ts:510-514 | The finally block: one credit for the current link, if there is one. |
| `MessageReceivers.MessageReceiver.OnDetached` | packages/nesbus/src/atom-adapter/atom-client/src/core/messageReceiver.ts:856-884 | Returns early when closed or already detaching; otherwise one more suspended body and a closed link. |
| `MessageReceivers.MessageReceiver.StartInit` | packages/nesbus/src/atom-adapter/atom-client/src/core/messageReceiver.ts:758-770 | A creation starts only when the receiver is neither open nor connecting; otherwise the caller goes straight on. |
| `MessageReceivers.MessageReceiver.LinkOpened` | packages/nesbus/src/atom-adapter/atom-client/src/core/messageReceiver.ts:785-806 | The new link starts with no credit, remembers the handlers still in flight, and the receiver is put back into the cache. |
| `MessageReceivers.MessageReceiver.InitFailed` | packages/nesbus/src/atom-adapter/atom-client/src/core/messageReceiver.ts:821-833 | A failed creation clears the connecting flag and waits for a retry, or ends in the catch block. |
| `MessageReceivers.MessageReceiver.AfterClosing` | packages/nesbus/src/atom-adapter/atom-client/src/core/messageReceiver.ts:897-929 | What follows the awaited close: swallow, rethrow, or start a reconnect, by error kind and cause. |
| `MessageReceivers.MessageReceiver.AfterReconnect` | packages/nesbus/src/atom-adapter/atom-client/src/core/messageReceiver.ts:937-955 | A reconnect grants one block of credit unless the receiver was closed meanwhile, in which case it closes the new link. |
| `MessageReceivers.MessageReceiver.FinishDetached` | packages/nesbus/src/atom-adapter/atom-client/src/core/messageReceiver.ts:996-998 | The finally block is the only end of a detach body. |
| `MessageReceivers.MessageReceiver.FinishCreate` | packages/nesbus/src/atom-adapter/atom-client/src/core/streamingReceiver.ts:105-116 | `create` puts the receiver into the cache even if it was closed meanwhile. |
| `BatchProtocol.FinalActionAtMostOnce` | packages/nesbus/src/atom-adapter/atom-client/src/core/batchingReceiver.ts:118-178 | On every run in which no detach ends a call between the creation of its link and the adding of its credit, the final action runs at most once per call. |
| `BatchProtocol.SecondFinalActionExactly` | packages/nesbus/src/atom-adapter/atom-client/src/core/batchingReceiver.ts:58-65 | From a state in that gap, some continuation of the call after the resumed detach has a second final action if and only if the call is still receiving and the object still has its link. |
| `BatchProtocol.EarlyEndIsReachable` | packages/nesbus/src/atom-adapter/atom-client/src/core/batchingReceiver.ts:423-430 | The gap is reachable where its continuation is a step of its own: receive, link created, connection lost. |
| `BatchProtocol.OneFinalActionWithoutWindow` | packages/nesbus/src/atom-adapter/atom-client/src/core/batchingReceiver.ts:423-430 | On every run on which the credit is added right after the link was created, each call has at most one final action. |
| `BatchProtocol.CreditUntilFinal` | packages/nesbus/src/atom-adapter/atom-client/src/core/batchingReceiver.ts:371-401 | Until the final action, collected messages + undecodable ones + link credit equal maxMessageCount, and the batch is exactly the dispatched messages in order. |
| `BatchProtocol.ResolvesWithBatch` | packages/nesbus/src/atom-adapter/atom-client/src/core/batchingReceiver.ts:118-205 | A call resolves with exactly the messages dispatched before its final action, in order, at most maxMessageCount of them, and only if none failed to decode. |
| `BatchProtocol.NextCallStartsClean` | packages/nesbus/src/atom-adapter/atom-client/src/receiver.ts:345-351 | When a live link has no call in progress it has zero credit, no timer and no listener, so the next call starts with credit equal to its own maximum. |
| `BatchProtocol.DrainsExactlyWhenShort` | packages/nesbus/src/atom-adapter/atom-client/src/core/batchingReceiver.ts:147-177 | On a live link the final action drains if and only if the batch is short; otherwise the call ends at once. |
| `BatchProtocol.CollectedExactly` | packages/nesbus/src/atom-adapter/atom-client/src/core/batchingReceiver.ts:176-205 | On every run that avoids the gap, a message that the link dispatches is collected if and only if the link does not drain. |
| `BatchProtocol.LostWhileDraining` | packages/nesbus/src/atom-adapter/atom-client/src/core/batchingReceiver.ts:230-246 | A message that arrives while the link drains changes nothing of what the call resolves with. |
| `BatchProtocol.DrainingIsReachable` | packages/nesbus/src/atom-adapter/atom-client/src/core/batchingReceiver.ts:147-177 | A call that runs into its timer without a message drains, with credit left for one more message than it asked for. |
| `BatchOutcome.OutcomeExactly` | packages/nesbus/src/atom-adapter/atom-client/src/core/batchingReceiver.ts:118-246 | What every event makes of a pending call, on every run that avoids the gap: a table over the batch, the credit left, the error and the mode. |
| `BatchOutcome.FullBatchResolves` | packages/nesbus/src/atom-adapter/atom-client/src/core/batchingReceiver.ts:176-205 | On a live link with nothing lost, a collected message resolves the call with all dispatched messages if and only if it is the last one asked for. |
| `BatchOutcome.DrainedResolves` | packages/nesbus/src/atom-adapter/atom-client/src/core/batchingReceiver.ts:230-246 | A link that has drained resolves a pending call with its batch. |
| `BatchOutcome.DetachOutcome` | packages/nesbus/src/atom-adapter/atom-client/src/core/batchingReceiver.ts:58-178 | A detach that ends a pending call rejects it if and only if there is an error and it is in peekLock mode or has no message; without an error it leaves it pending exactly when link and credit are still there; otherwise it resolves it with its batch. |
| `BatchOutcome.SettlesExactly` | packages/nesbus/src/atom-adapter/atom-client/src/core/batchingReceiver.ts:147-177 | A pending call can still settle, on some continuation, if and only if its final action has not run or its link is open. |
| `BatchOutcome.HangIsReachable` | packages/nesbus/src/atom-adapter/atom-client/src/core/batchingReceiver.ts:58-65 | A connection that goes down without an error while a message is missing leads to a call that never settles. |
| `BatchOutcome.IdleTimerExactly` | packages/nesbus/src/atom-adapter/atom-client/src/core/batchingReceiver.ts:298-318 | After any event of any run the timer for the next message runs exactly when a message of a collecting call started it in peekLock mode and no final action, link error or close has come since. |
| `BatchOutcome.WaitsExactly` | packages/nesbus/src/atom-adapter/atom-client/src/core/batchingReceiver.ts:414-430 | A call waits for a new link exactly when it started without an open one, and for its credit exactly when that link was answered. |
| `BatchOutcome.DetachesResumeOnce` | packages/nesbus/src/atom-adapter/atom-client/src/core/batchingReceiver.ts:51-65 | On every run the suspended detach bodies are those that started less those that resumed. |
| `BatchOutcome.FailedLinkIsOver` | packages/nesbus/src/atom-adapter/atom-client/src/core/batchingReceiver.ts:268-296 | Once a link error has failed a collecting call, no continuation runs a final action of it or changes its batch. |
| `BatchOutcome.RemoteCloseLeavesTimers` | packages/nesbus/src/atom-adapter/atom-client/src/core/batchingReceiver.ts:248-266 | After a remote close a detach no longer ends the call; its timer still can. |
| `BatchOutcome.CloseThenTimer` | packages/nesbus/src/atom-adapter/atom-client/src/core/batchingReceiver.ts:147-177 | After a close by the user the timer settles a pending call at once, by error, mode and batch. |
| `BatchOutcome.NewLinkForgetsError` | packages/nesbus/src/atom-adapter/atom-client/src/core/batchingReceiver.ts:406-412 | A call that needs a new link is not failed by the error of the last one. |
| `BatchingReceivers.BatchingReceiver.Laws` | packages/nesbus/src/atom-adapter/atom-client/src/core/batchingReceiver.ts:371-401 | After any sequence of the events below the fields keep the credit of the call, the final action once, and the batch in order. |
| `BatchingReceivers.BatchingReceiver.Receive` | packages/nesbus/src/atom-adapter/atom-client/src/core/batchingReceiver.ts:76-90 | Starts a call: on an open link with its credit and timer at once, otherwise waiting for a link. |
| `BatchingReceivers.BatchingReceiver.OnLinkAnswered` | packages/nesbus/src/atom-adapter/atom-client/src/core/batchingReceiver.ts:423-430 | The link of a call that waits is there, or its creation failed and the call rejects. |
| `BatchingReceivers.BatchingReceiver.AfterInit` | packages/nesbus/src/atom-adapter/atom-client/src/core/batchingReceiver.ts:423-430 | The continuation of `_init` adds the credit, or rejects when the receiver was closed meanwhile. |
| `BatchingReceivers.BatchingReceiver.FinalAction` | packages/nesbus/src/atom-adapter/atom-client/src/core/batchingReceiver.ts:118-178 | Timers and listeners go first; then the call rejects, drains what credit is left, or resolves. |
| `BatchingReceivers.BatchingReceiver.OnReceiveMessage` | packages/nesbus/src/atom-adapter/atom-client/src/core/batchingReceiver.ts:176-205 | Takes one credit, restarts the new-message timer in peekLock mode, collects or rejects, and ends the call when the batch is full. |
| `BatchingReceivers.BatchingReceiver.ActionAfterWaitTimeout` | packages/nesbus/src/atom-adapter/atom-client/src/core/batchingReceiver.ts:321-330 | The total wait timer ends the call. |
| `BatchingReceivers.BatchingReceiver.OnNewMessageTimeout` | packages/nesbus/src/atom-adapter/atom-client/src/core/batchingReceiver.ts:298-318 | The new-message timer ends the call. |
| `BatchingReceivers.BatchingReceiver.OnReceiveDrain` | packages/nesbus/src/atom-adapter/atom-client/src/core/batchingReceiver.ts:230-246 | A drained link has no credit left, and the call resolves with what it has. |
| `BatchingReceivers.BatchingReceiver.OnDetached` | packages/nesbus/src/atom-adapter/atom-client/src/core/batchingReceiver.ts:58-60 | The link is closed before the error is recorded. |
| `BatchingReceivers.BatchingReceiver.AfterLinkClosed` | packages/nesbus/src/atom-adapter/atom-client/src/core/batchingReceiver.ts:61-65 | A detach ends the call only if it is receiving and its final action has not run. |
| `BatchingReceivers.BatchingReceiver.OnReceiveError` | packages/nesbus/src/atom-adapter/atom-client/src/core/batchingReceiver.ts:268-296 | A link error rejects, and takes timers and listeners with it, unless the final action already did. |
| `BatchingReceivers.BatchingReceiver.OnReceiveClose` | packages/nesbus/src/atom-adapter/atom-client/src/core/batchingReceiver.ts:248-266 | A remote close only clears the receiving flag. |
| `BatchingReceivers.BatchingReceiver.Close` | packages/nesbus/src/atom-adapter/atom-client/src/core/messageReceiver.ts:1005-1020 | Closing drops the link and the new-message timer; the call goes on until its total timer. |
| `Dispositions.SettledOnce` | packages/nesbus/src/atom-adapter/atom-client/src/core/messageReceiver.ts:1028-1063 | On every run, overlapping settlements included, each settle promise is settled at most once and is pending exactly while its timer is armed. |
| `Dispositions.SettledForGood` | packages/nesbus/src/atom-adapter/atom-client/src/core/messageReceiver.ts:289-326 | A settled promise never changes: late outcomes and timeouts have no effect on it. |
| `Dispositions.MapHoldsArmedIds` | packages/nesbus/src/atom-adapter/atom-client/src/core/messageReceiver.ts:1028-1063 | With at most one outstanding settlement per delivery, the keys of the disposition map are exactly the delivery ids with an armed timer. |
| `Dispositions.OutcomeReachesItsSettlement` | packages/nesbus/src/atom-adapter/atom-client/src/core/messageReceiver.ts:289-326 | A remote outcome settles the outstanding settlement of its delivery, with the error it carries, and no other; without one it changes nothing. |
| `Dispositions.ExactExactlyWithoutOverlap` | packages/nesbus/src/atom-adapter/atom-client/src/core/messageReceiver.ts:1028-1063 | After every part of a run the map holds exactly the outstanding settlements, if and only if no settlement of the run overlaps another of its delivery. |
| `Dispositions.OverlapSpoilsExactly` | packages/nesbus/src/atom-adapter/atom-client/src/core/messageReceiver.ts:1040-1063 | A settle call can leave the keys of the map wrong, on some run without further overlap, if and only if it overlaps an outstanding settlement. |
| `Dispositions.OrphansExactly` | packages/nesbus/src/atom-adapter/atom-client/src/core/messageReceiver.ts:1059-1063 | A step orphans a pending settlement if and only if it is a settle call that overlaps it. |
| `Dispositions.OverlapOrphans` | packages/nesbus/src/atom-adapter/atom-client/src/core/messageReceiver.ts:1059-1063 | A second settlement of a delivery takes the map entry of the first, in every state. |
| `Dispositions.OrphanOnlyTimesOut` | packages/nesbus/src/atom-adapter/atom-client/src/core/messageReceiver.ts:1040-1057 | A settlement that lost its entry ends by its timeout and in no other way, on every run. |
| `Dispositions.TimeoutOrphansTheOther` | packages/nesbus/src/atom-adapter/atom-client/src/core/messageReceiver.ts:1040-1057 | The timeout of the first of two overlapping settlements deletes the entry of the second. |
| `Dispositions.SettleStarts` | packages/nesbus/src/atom-adapter/atom-client/src/core/messageReceiver.ts:1028-1063 | On every run a settle call that is not valid rejects at once and arms nothing; a valid one is pending with its timer and its entry. |
| `DispositionMaps.DispositionMap.Laws` | packages/nesbus/src/atom-adapter/atom-client/src/core/messageReceiver.ts:289-326 | After any sequence of the events below each promise is settled at most once and pending exactly while its timer is armed; without overlap the map is exact. |
| `DispositionMaps.DispositionMap.SettleMessage` | packages/nesbus/src/atom-adapter/atom-client/src/core/messageReceiver.ts:1028-1063 | One more settle call of the run: a valid operation arms one timer and one map entry; an invalid one rejects at once. |
| `DispositionMaps.DispositionMap.OnSettled` | packages/nesbus/src/atom-adapter/atom-client/src/core/messageReceiver.ts:289-326 | One more outcome: a settled one with an entry disarms the timer, removes the entry and settles the promise. |
| `DispositionMaps.DispositionMap.OnTimeout` | packages/nesbus/src/atom-adapter/atom-client/src/core/messageReceiver.ts:1040-1057 | One more timeout: it removes whatever entry its delivery id has, and rejects its own promise. |
| `LockRenewal.OneTimerPerMessage` | packages/nesbus/src/atom-adapter/atom-client/src/core/messageReceiver.ts:353-457 | While the id of a message is not delivered again before its task came to rest, the message has at most one armed timer or renewal in flight, whatever other ids do, and only a task whose lock ends before its time is armed. |
| `LockRenewal.NoRenewalAfterClear` | packages/nesbus/src/atom-adapter/atom-client/src/core/messageReceiver.ts:353-457 | Without an entry, no run starts a renewal request for the message until it is delivered again. |
| `LockRenewal.ClearEndsRenewal` | packages/nesbus/src/atom-adapter/atom-client/src/core/messageReceiver.ts:268-279 | A clear at any point of any run ends the renewals of the message, also when a renewal is awaited meanwhile. |
| `LockRenewal.ClearAllEmpties` | packages/nesbus/src/atom-adapter/atom-client/src/core/messageReceiver.ts:280-287 | Clearing all empties the map and disarms every timer. |
| `LockRenewal.ReuseRenewsExactly` | packages/nesbus/src/atom-adapter/atom-client/src/core/messageReceiver.ts:353-456 | A message delivered again is renewed after a clear, on some run, if and only if its earlier task is busy; when the time of the new delivery is already over, if and only if that task is armed. |
| `LockRenewal.ReuseIsReachable` | packages/nesbus/src/atom-adapter/atom-client/src/core/messageReceiver.ts:353-364 | The first delivery of an id arms its timer, whenever its time is not over. |
| `LockRenewal.DeliveryArmsExactly` | packages/nesbus/src/atom-adapter/atom-client/src/core/messageReceiver.ts:353-409 | A delivery arms its timer if and only if its time is over neither by the clock nor by its lock. |
| `LockRenewal.RenewsAgainExactly` | packages/nesbus/src/atom-adapter/atom-client/src/core/messageReceiver.ts:398-433 | An answered renewal is followed by the next one if and only if the message was not cleared meanwhile and its time is not over by then; a failed one never is. |
| `LockRenewTimers.RenewTimers.Laws` | packages/nesbus/src/atom-adapter/atom-client/src/core/messageReceiver.ts:353-457 | After any sequence of the events below a message whose id was not reused has one task at most, and without an entry no request starts for it on any continuation. |
| `LockRenewTimers.RenewTimers.ClearMessageLockRenewTimer` | packages/nesbus/src/atom-adapter/atom-client/src/core/messageReceiver.ts:268-279 | Removes the entry, and disarms the timer it holds. |
| `LockRenewTimers.RenewTimers.ClearAllMessageLockRenewTimers` | packages/nesbus/src/atom-adapter/atom-client/src/core/messageReceiver.ts:280-287 | The loop over the keys removes every entry and exactly the timers that entries hold. |
| `LockRenewTimers.RenewTimers.AutoRenewLockTask` | packages/nesbus/src/atom-adapter/atom-client/src/core/messageReceiver.ts:377-453 | Arms a timer only while the time is not over, the lock ends before it, and the entry was not cleared. |
| `LockRenewTimers.RenewTimers.OnMessage` | packages/nesbus/src/atom-adapter/atom-client/src/core/messageReceiver.ts:353-455 | One more delivery of the run: a message with a lock makes an entry and starts its renewals. |
| `LockRenewTimers.RenewTimers.OnTimer` | packages/nesbus/src/atom-adapter/atom-client/src/core/messageReceiver.ts:398-409 | One more fired timer: it becomes one renewal request in flight. |
| `LockRenewTimers.RenewTimers.AfterRenewLock` | packages/nesbus/src/atom-adapter/atom-client/src/core/messageReceiver.ts:405-421 | One more answer: it updates the lock expiry, and the renewal is scheduled again. |
| `LockRenewTimers.RenewTimers.OnRenewFailed` | packages/nesbus/src/atom-adapter/atom-client/src/core/messageReceiver.ts:422-433 | A renewal that fails ends the task and leaves its entry. |
| `LockRenewTimers.RenewTimers.OnHandled` | packages/nesbus/src/atom-adapter/atom-client/src/core/messageReceiver.ts:458-477 | The end of the handler clears the message. |
| `LockRenewTimers.RenewTimers.OnClosing` | packages/nesbus/src/atom-adapter/atom-client/src/core/messageReceiver.ts:1014 | A close clears all messages. |
| `Provisioning.EnsureShrinks` | packages/nesbus/src/management/configurator.ts:63-71 | A queue is cached before its links are followed, so fewer names are left: the measure of the recursion. |
| `Provisioning.NamesExist` | packages/nesbus/src/management/configurator.ts:203-223 | Any finite configuration, cyclic or not, is covered by finitely many names, so the recursion ends on all of them. |
| `Provisioning.VerifyQueue` | packages/nesbus/src/management/configurator.ts:51-80 | Terminates on any graph of links, and forgets no cached name, loses no entity and deletes nothing. |
| `Provisioning.VerifySubscription` | packages/nesbus/src/management/configurator.ts:115-156 | Topic, subscription, links and rules in this order, with the same guarantees. |
| `ProvisioningSafety.ExistingUnchanged` | packages/nesbus/src/management/configurator.ts:236-238 | Over all sequential runs of verify, create and delete calls, an entity that can be read and was not deleted stays as it was. |
| `ProvisioningSafety.CreatedAtMostOnce` | packages/nesbus/src/management/configurator.ts:51-184 | Each queue, topic, subscription and rule is created at most once per configurator, and never if it existed. |
| `ProvisioningSafety.CreatesExactlyWhenMissing` | packages/nesbus/src/management/configurator.ts:63-66 | A fresh configurator creates a queue if and only if it cannot be read and the provision is verifyCreate. |
| `ProvisioningSafety.CacheAgreesWithService` | packages/nesbus/src/management/configurator.ts:68-71 | Every cache entry of colon-free names equals the entity of the service, unless it was deleted. |
| `ProvisioningSafety.UniqueKeyInjective` | packages/nesbus/src/management/configurator.ts:20-22 | The joined key determines its parts when the last part holds no colon. |
| `ProvisioningSafety.CacheKeyInjective` | packages/nesbus/src/management/configurator.ts:20-22 | Colon-free names: different entities of one kind never share a cache key. |
| `ProvisioningSafety.NormalizeIdempotent` | packages/nesbus/src/management/configurator.ts:225-234 | Normalizing twice is normalizing once. |
| `ProvisioningSafety.LinkedLikeDirect` | packages/nesbus/src/management/configurator.ts:203-223 | A linked entity gets the same effective parameters and the same effect as a direct one. |
| `ProvisioningSafety.LinksAreVerified` | packages/nesbus/src/management/configurator.ts:73-76 | When a queue is verified, both its links are: a linked entity to be created is in the cache afterwards, at any depth of a cyclic graph. |
| `ProvisioningCache.CachedIsNeverCreated` | packages/nesbus/src/management/configurator.ts:51-184 | A cached key is not created by any run, however far links lead, and if the service lacks it no run supplies it. |
| `ProvisioningCache.DeletedComesBackExactly` | packages/nesbus/src/management/configurator.ts:81-84 | A deleted queue, topic, subscription or rule comes back under a request that creates it if and only if it is not cached. |
| `ProvisioningCache.SomeRunRestoresExactly` | packages/nesbus/src/management/configurator.ts:81-84 | Some sequence of requests brings a deleted entity back if and only if it is not cached. |
| `ProvisioningCache.CollidesExactly` | packages/nesbus/src/management/configurator.ts:20-22 | The cache key of an entity is that of another entity of its kind if and only if a name in it holds a colon. |
| `ProvisioningCache.CollidingIsNeverCreated` | packages/nesbus/src/management/configurator.ts:115-124 | An entity whose key collides with one that is cached is answered with that one, and no run creates it. |
| `ProvisioningReadOnly.VerifyOnlyNeverWrites` | packages/nesbus/src/management/configurator.ts:51-184 | Where nothing asks for creation, no run creates, changes or deletes, however far links lead. |
| `ProvisioningReadOnly.VerifyOnlyCacheIsService` | packages/nesbus/src/management/configurator.ts:68-71 | In such runs the service is untouched and every cache entry equals its entity. |
| `ProvisioningContents.CreatedContents` | packages/nesbus/src/management/configurator.ts:225-234 | A verifyCreate request on a new configurator that creates its queue, topic or subscription gives it, property by property and for both links, the value of the provision where it sets one, else the default, and no other property. |
| `ProvisioningContents.RequestExactly` | packages/nesbus/src/management/configurator.ts:51-156 | From any world, a request for its entity alone: cached, left out, found, missing, refused or created with exactly those contents; nothing else changes. |
| `ProvisioningContents.EnsureExactly` | packages/nesbus/src/management/configurator.ts:63-71 | An entity that is not cached is found as it is, left alone, refused, or created once with exactly the given parameters and cached. |
| `ProvisioningContents.RuleExactly` | packages/nesbus/src/management/configurator.ts:162-184 | The same for one rule, which has no defaults: created with exactly its parameters, under its subscription. |
| `ProvisioningContents.DeleteExactly` | packages/nesbus/src/management/configurator.ts:81-84 | A delete throws exactly without an entity; otherwise the service loses it and what lives under it and nothing else, and the caches keep everything. |
| `ProvisioningContents.QueueThenLinks` | packages/nesbus/src/management/configurator.ts:51-80 | Verifying a queue is verifying it alone and then requesting its dead-letter target, then its forward target, each like a request of its own. |
| `ProvisioningContents.SubscriptionThenRest` | packages/nesbus/src/management/configurator.ts:115-156 | Verifying a subscription is verifying its topic, if the provision has one, then itself, then its links, then its rules, up to the first of them that throws. |
| `ProvisioningContents.SubscriptionVerifies` | packages/nesbus/src/management/configurator.ts:126-152 | When a verifyCreate request for a subscription succeeds, the subscription, and every rule of it that is to be created, is in the cache. |
| `SbConfigurators.SbConfigurator.Fetch` | packages/nesbus/src/management/configurator.ts:63-66 | A failing get counts as absent; creation only for verifyCreate; a rejected creation throws. |
| `SbConfigurators.SbConfigurator.EnsureEntity` | packages/nesbus/src/management/configurator.ts:63-71 | What exists after the fetch is cached under its key, and nothing else. |
| `SbConfigurators.SbConfigurator.VerifyTopic` | packages/nesbus/src/management/configurator.ts:86-109 | Answers from the cache, skips, or ensures the topic. |
| `SbConfigurators.SbConfigurator.VerifyQueue` | packages/nesbus/src/management/configurator.ts:51-80 | The recursive method computes the recursion of the specification on the service and the caches. |
| `SbConfigurators.SbConfigurator.FollowLinks` | packages/nesbus/src/management/configurator.ts:73-76 | The dead-letter link before the forward link; the first error ends it. |
| `SbConfigurators.SbConfigurator.ResolveLinkedEntity` | packages/nesbus/src/management/configurator.ts:203-223 | A missing name or link does nothing; the parent kind is the default. |
| `SbConfigurators.SbConfigurator.VerifyRule` | packages/nesbus/src/management/configurator.ts:162-184 | The cache is asked before skip. |
| `SbConfigurators.SbConfigurator.VerifyRules` | packages/nesbus/src/management/configurator.ts:148-152 | The loop over the rules, which goes on past a rule that throws. |
| `SbConfigurators.SbConfigurator.VerifySubscription` | packages/nesbus/src/management/configurator.ts:115-156 | The method computes the specification on the service and the caches. |
| `SbConfigurators.SbConfigurator.Delete` | packages/nesbus/src/management/configurator.ts:157-160 | Deletes from the service and leaves the caches alone. |
| `SbConfigurators.SbConfigurator.SubscriptionHasDependency` | packages/nesbus/src/management/configurator.ts:193-201 | True exactly when the subscription and its topic are both provisioned. |
| `RuleInterleaving.AnyInterleavingIsSequential` | packages/nesbus/src/management/configurator.ts:148-152 | Rules with distinct names verified in any interleaving end in the world of verifying them one after the other, and fail in the same cases. |
| `RuleInterleaving.SameNameCreatesTwiceExactly` | packages/nesbus/src/management/configurator.ts:162-184 | Some interleaving creates an entity twice if and only if two rules of one name both create it and it is missing. |
| `RouteServer.OrderIsPermutation` | packages/nesbus/src/server/service-bus-server.ts:139-149 | No route is lost, added or committed twice. |
| `RouteServer.TopicsFirst` | packages/nesbus/src/server/service-bus-server.ts:90-119 | In sequence mode, from the first non-dependent subscription on, every topic that a dependent route creates exists in the service. |
| `RouteServer.CommitsByPosition` | packages/nesbus/src/server/service-bus-server.ts:90-149 | Routes are committed queues first, then the subscriptions that provision their topic, the last registered first, then the other subscriptions; queues and others in order of registration. |
| `RouteServer.DependentExactly` | packages/nesbus/src/management/configurator.ts:193-201 | A subscription route counts as dependent if and only if serving it looks up its topic. |
| `RouteServer.DependentProvisionsTopic` | packages/nesbus/src/management/configurator.ts:129-136 | Serving a dependent route leaves its topic in the service, whether or not the rest of it fails. |
| `SbServers.SbServer.AppendRoute` | packages/nesbus/src/server/service-bus-server.ts:139-149 | Keeps queues in order and the dependent subscriptions reversed in front of the others; throws after a commit. |
| `SbServers.SbServer.ExecuteRoute` | packages/nesbus/src/routing/subscriber-route-handler.ts:38-44 | Verifies the entity of the route; an error goes to the error handler and the commit goes on. |
| `SbServers.SbServer.CommitRoutes` | packages/nesbus/src/server/service-bus-server.ts:90-119 | The two loops execute the routes in the commit order by positions, and the service and caches are those of serving it; a second commit throws. |
| `BackoffRetry.NeverLost` | packages/nesbus/tasks/src/backoff.interceptor/back-off.interceptor.ts:25-50 | Whatever sends, completes and abandons fail, take effect unreported or lose their lock, until a handler run succeeds some copy is not completed. |
| `BackoffRetry.CountBounded` | packages/nesbus/tasks/src/backoff.interceptor/utils.ts:71-84 | No copy carries a count above retryCount + 1 unless it came with it. |
| `BackoffRetry.RunsBounded` | packages/nesbus/tasks/src/backoff.interceptor/back-off.interceptor.ts:25-50 | The handler runs at most as often as the retry count leaves, times one plus the number of redeliveries, over all runs. |
| `BackoffRetry.AtMostRetriesPlusOne` | packages/nesbus/tasks/src/backoff.interceptor/back-off.interceptor.ts:25-50 | Without redelivery a new message is handled at most retryCount + 1 times. |
| `BackoffRetry.ExhaustedMessage` | packages/nesbus/tasks/src/backoff.interceptor/back-off.interceptor.ts:30-33 | A handler that always fails reaches the bound; the last copy is abandoned without running it. |
| `BackoffOutcome.EndsExactly` | packages/nesbus/tasks/src/backoff.interceptor/back-off.interceptor.ts:25-50 | Every run on which the calls to the broker go through ends, once nothing more can happen, with all copies completed after a success, the last by the one successful handler run, or else with the last copy dead-lettered without a handler run, its count the first above retryCount. |
| `BackoffOutcome.SucceedsAfter` | packages/nesbus/tasks/src/backoff.interceptor/back-off.interceptor.ts:25-50 | A handler may fail any number of times within retryCount and then succeed: one more run, and the copy is completed. |
| `BackoffOutcome.AbandonsExactly` | packages/nesbus/tasks/src/backoff.interceptor/back-off.interceptor.ts:30-50 | A delivery is given back if and only if its count exceeds retryCount, its retry was not reported as sent, or its completion was not after the retry was sent. |
| `BackoffOutcome.RetriesExactly` | packages/nesbus/tasks/src/backoff.interceptor/back-off.interceptor.ts:36-50 | A retry is sent if and only if the handler failed, and a success is recorded exactly when it did not. |
| `BackoffOutcome.SendsExactly` | packages/nesbus/tasks/src/backoff.interceptor/utils.ts:71-84 | Whatever is reported, the broker holds one more copy, scheduled and with the next count, exactly when it carried out a send. |
| `BackoffOutcome.LeavesExactly` | packages/nesbus/tasks/src/backoff.interceptor/back-off.interceptor.ts:25-50 | A locked copy is completed, queued again or dead-lettered exactly by the completion, the lost lock or the abandon of its own delivery that the broker carries out. |
| `BackoffClone.NoCountExactly` | packages/nesbus/tasks/src/backoff.interceptor/utils.ts:42-53 | The answer is false exactly for a property that is missing, null, not a number, or a text that is none. |
| `BackoffClone.CountIsNumber` | packages/nesbus/tasks/src/backoff.interceptor/utils.ts:42-53 | Otherwise the count is what JavaScript converts the property to. |
| `BackoffClone.Message.Clone` | packages/nesbus/src/atom-adapter/atom-client/src/serviceBusMessage.ts:994-1014 | The clone shares the object of the user properties. |
| `BackoffClone.Message.CreateBackoffClone` | packages/nesbus/tasks/src/backoff.interceptor/utils.ts:71-84 | The clone carries the next count, whatever number the current one is, and its schedule; the count of the failed message changes with it if it had user properties. |
| `BackoffDelay.PercentExactly` | packages/nesbus/tasks/src/backoff.interceptor/utils.ts:59-61 | The jitter draws every whole percentage within the distort factor and no other. |
| `BackoffDelay.WithinDistortion` | packages/nesbus/tasks/src/backoff.interceptor/utils.ts:55-69 | Below the last iteration each delay lies within the distort percentage of the undistorted one. |
| `BackoffDelay.GrowsExactly` | packages/nesbus/tasks/src/backoff.interceptor/utils.ts:63-65 | For one configuration, delays grow at every iteration whatever the draws if and only if F (100 - d) >= 100 + d. |
| `BackoffDelay.ThirtyThree` | packages/nesbus/tasks/src/backoff.interceptor/utils.ts:63-65 | They grow for every factor and delay if and only if the distort factor is at most 33. |
| `BackoffDelay.LinearGrowsAtExactly` | packages/nesbus/tasks/src/backoff.interceptor/utils.ts:66-68 | Linear delays grow from one iteration to the next, whatever the draws, if and only if (2 i + 3) d < 100. |
| `BackoffDelay.LinearGrowsExactly` | packages/nesbus/tasks/src/backoff.interceptor/utils.ts:66-68 | They grow at every iteration if and only if the distort factor is zero. |
| `BackoffDelay.StrictlyIncreasing` | packages/nesbus/tasks/src/backoff.interceptor/utils.ts:55-69 | With a distort factor of at most 33, delays strictly increase over all iterations below retryCount. |
| `BackoffDelay.LastRetryIsImmediate` | packages/nesbus/tasks/src/backoff.interceptor/utils.ts:56-58 | At iteration retryCount the delay is zero, below the one before. |
| `BackoffDelay.TotalWait` | packages/nesbus/tasks/src/backoff.interceptor/utils.ts:63-65 | The total wait lies within the distort percentage of the geometric closed form. |
| `BackoffDelay.FirstDelay` | packages/nesbus/tasks/src/backoff.interceptor/utils.ts:63-65 | Without jitter twice the first exponential delay is (f - 1) times the configured delay, with f the factor, at least 2. |
| `BackoffDelay.NextDelay` | packages/nesbus/tasks/src/backoff.interceptor/utils.ts:63-65 | Without jitter twice the next exponential delay is 2 f times this one plus (f - 1) times the configured delay. |
| `BackoffDelay.LinearDelays` | packages/nesbus/tasks/src/backoff.interceptor/utils.ts:66-68 | Without jitter the linear delay at iteration i is i + 1 times the configured delay times the factor. |
| `BackoffDelay.WithinOfUndistorted` | packages/nesbus/tasks/src/backoff.interceptor/utils.ts:55-69 | Each delay lies within the distort percentage of the delay without jitter. |
| `Semaphores.HeldWithinLimit` | packages/nesbus/src/atom-adapter/atom-client/src/util/semaphore.ts:31-55 | Over all well-bracketed runs the callers holding a permit are as many as `_used`, fewer than limit + 1, within an integral limit, and somebody waits only when the limit is reached. |
| `Semaphores.LimitHoldsExactlyWhenIntegral` | packages/nesbus/src/atom-adapter/atom-client/src/util/semaphore.ts:15-26 | The permits stay within the limit on all runs if and only if the limit is a whole number. |
| `Semaphores.DoubleReleaseExceedsLimit` | packages/nesbus/src/atom-adapter/atom-client/src/util/semaphore.ts:46-55 | A caller that releases twice lets one too many in. |
| `Semaphores.FirstComeFirstServed` | packages/nesbus/src/atom-adapter/atom-client/src/util/semaphore.ts:31-55 | Permits are granted in the order of arrival. |
| `Semaphores.GrantedByItsRelease` | packages/nesbus/src/atom-adapter/atom-client/src/util/semaphore.ts:46-55 | A waiter with k others before it is granted by exactly the (k + 1)-th release. |
| `SemaphoreUse.UseIsBracketed` | packages/nesbus/src/atom-adapter/atom-client/src/util/semaphore.ts:63-73 | The calls of `use` release what they hold and once, on every run in which other callers release only permits of their own. |
| `SemaphoreUse.UseWithinLimit` | packages/nesbus/src/atom-adapter/atom-client/src/util/semaphore.ts:63-73 | Whatever functions return or throw, fewer than limit + 1 of them are between their start and the release, within an integral limit. |
| `SemaphoreUse.ReleasesOnce` | packages/nesbus/src/atom-adapter/atom-client/src/util/semaphore.ts:63-73 | On every run a call of `use` has released once if it is settled, and not at all before. |
| `SemaphoreUse.UseGoesOn` | packages/nesbus/src/atom-adapter/atom-client/src/util/semaphore.ts:63-73 | While some call is not settled some call can go on; when none can, every permit is free and nobody waits. |
| `SemaphoreUse.StartsExactly` | packages/nesbus/src/atom-adapter/atom-client/src/util/semaphore.ts:31-64 | A call of `use` starts at any time and can begin at once if and only if fewer callers than the limit hold a permit. |
| `SemaphoreUse.OutcomeOfFunction` | packages/nesbus/src/atom-adapter/atom-client/src/util/semaphore.ts:63-73 | On every run a call of `use` is fulfilled only after its function returned and rejected only after it threw, and it began with its permit. |
| `SemaphoreUse.CallGoesThrough` | packages/nesbus/src/atom-adapter/atom-client/src/util/semaphore.ts:63-73 | A call that has its permit can begin, end and settle as its function ended. |
| `SemaphoreObjects.Semaphore.Create` | packages/nesbus/src/atom-adapter/atom-client/src/util/semaphore.ts:17-26 | A limit below 1 is refused. |
| `SemaphoreObjects.Semaphore.Acquire` | packages/nesbus/src/atom-adapter/atom-client/src/util/semaphore.ts:31-40 | Resolves at once exactly when a permit is free, else queues. |
| `SemaphoreObjects.Semaphore.Release` | packages/nesbus/src/atom-adapter/atom-client/src/util/semaphore.ts:46-55 | Hands the permit to the first waiter, or frees it. |
| `SemaphoreObjects.Semaphore.Use` | packages/nesbus/src/atom-adapter/atom-client/src/util/semaphore.ts:63-64 | A call of `use` waits for the promise of its `acquire`. |
| `SemaphoreObjects.Semaphore.AfterReturn` | packages/nesbus/src/atom-adapter/atom-client/src/util/semaphore.ts:66-69 | The `then` after the function gives the permit of the call back. |
| `SemaphoreObjects.Semaphore.AfterThrow` | packages/nesbus/src/atom-adapter/atom-client/src/util/semaphore.ts:70-73 | The final `catch` gives it back when the function threw. |
| `ExpiringMaps.HasIgnoresCollection` | packages/nesbus/src/atom-adapter/atom-client/src/util/concurrentExpiringMap.ts:83-88 | After every interleaving of operations, collections and the clock, `has` answers whether the last set that was not taken back expires later than now. |
| `ExpiringMaps.HoldsOrExpired` | packages/nesbus/src/atom-adapter/atom-client/src/util/concurrentExpiringMap.ts:42-57 | An entry is missing only if it was taken back or had expired when it was collected. |
| `ExpiringMaps.DeleteSeesCollection` | packages/nesbus/src/atom-adapter/atom-client/src/util/concurrentExpiringMap.ts:95-98 | `delete` answers true for every key whose last set has not expired. |
| `ExpiringMaps.CollectionChangesDeleteExactly` | packages/nesbus/src/atom-adapter/atom-client/src/util/concurrentExpiringMap.ts:48-52 | A collection changes the answer of `delete` exactly for expired keys. |
| `ExpiringMaps.StuckExactly` | packages/nesbus/src/atom-adapter/atom-client/src/util/concurrentExpiringMap.ts:31-45 | A run ends with the cleanup flag set for good if and only if at some point of it the last cleanup on its way was granted the lock on an empty map. |
| `ExpiringMaps.StuckIsReachable` | packages/nesbus/src/atom-adapter/atom-client/src/util/concurrentExpiringMap.ts:31-45 | Set, delete, lock granted: such a run, where the lock calls back in a later step than the call. |
| `ExpiringMaps.AtOnceNeverStuck` | packages/nesbus/src/atom-adapter/atom-client/src/util/concurrentExpiringMap.ts:31-45 | On every run on which the lock calls back at once the map is never stuck. |
| `ExpiringMaps.StuckForever` | packages/nesbus/src/atom-adapter/atom-client/src/util/concurrentExpiringMap.ts:31-45 | From then on no run ever collects an entry. |
| `ExpiringMaps.ClockGoesOn` | packages/nesbus/src/atom-adapter/atom-client/src/util/concurrentExpiringMap.ts:47-56 | The clock goes on by what passes, and by what a collection takes. |
| `ConcurrentExpiringMaps.ConcurrentExpiringMap.Laws` | packages/nesbus/src/atom-adapter/atom-client/src/util/concurrentExpiringMap.ts:31-57 | After any sequence of the events below an entry is the last set, only expired ones are missing, and the flag is stuck exactly as the run says. |
| `ConcurrentExpiringMaps.ConcurrentExpiringMap.Set` | packages/nesbus/src/atom-adapter/atom-client/src/util/concurrentExpiringMap.ts:65-74 | One more set of the run: stores the expiration and schedules a cleanup unless one is scheduled. |
| `ConcurrentExpiringMaps.ConcurrentExpiringMap.Has` | packages/nesbus/src/atom-adapter/atom-client/src/util/concurrentExpiringMap.ts:83-88 | Answers whether the last set of the key that was not taken back expires later than the clock says, whatever was collected. |
| `ConcurrentExpiringMaps.ConcurrentExpiringMap.Delete` | packages/nesbus/src/atom-adapter/atom-client/src/util/concurrentExpiringMap.ts:95-98 | Answers true for a key whose last set has not expired, false for one that was never set or was taken back, and removes it. |
| `ConcurrentExpiringMaps.ConcurrentExpiringMap.OnLockGranted` | packages/nesbus/src/atom-adapter/atom-client/src/util/concurrentExpiringMap.ts:31-45 | One more grant of the lock: the flag is set before the collector looks at the map. |
| `ConcurrentExpiringMaps.ConcurrentExpiringMap.CollectExpiredEntries` | packages/nesbus/src/atom-adapter/atom-client/src/util/concurrentExpiringMap.ts:47-56 | One more collection: the entries go whose expiration the clock had passed when they were checked. |
| `ConcurrentExpiringMaps.ConcurrentExpiringMap.RemoveExpired` | packages/nesbus/src/atom-adapter/atom-client/src/util/concurrentExpiringMap.ts:50-55 | The loop over the keys removes exactly those entries. |
| `EntityContexts.SharedExactlyByPath` | packages/nesbus/src/atom-adapter/atom-client/src/clientEntityContext.ts:334-345 | Over all interleaved runs, registered contexts share a management client if and only if they have the same path, and that client is open. |
| `EntityContexts.ClosedExactlyWhenUnused` | packages/nesbus/src/atom-adapter/atom-client/src/clientEntityContext.ts:317-323 | Each management client is closed at most once, and exactly when no registered context uses it. |
| `EntityContexts.ClosesExactlyWhenLast` | packages/nesbus/src/atom-adapter/atom-client/src/clientEntityContext.ts:317-323 | Closing a context closes its client if and only if it is the last registered one for its path. |
| `EntityContexts.CreatesOpen` | packages/nesbus/src/atom-adapter/atom-client/src/clientEntityContext.ts:334-345 | A context starts open and registered, with the id and the path that were asked for. |
| `EntityContexts.ClosesExactly` | packages/nesbus/src/atom-adapter/atom-client/src/clientEntityContext.ts:278-325 | A close goes through to its end and unregisters the context if and only if the connection is open when it starts; otherwise it changes nothing. |
| `ConnectionContexts.ConnectionContext.Laws` | packages/nesbus/src/atom-adapter/atom-client/src/clientEntityContext.ts:265-345 | After any sequence of the events below, with a client id for each context, clients are shared exactly by path and closed exactly when unused. |
| `ConnectionContexts.ConnectionContext.GetManagementClient` | packages/nesbus/src/atom-adapter/atom-client/src/clientEntityContext.ts:354-366 | The loop finds the client of the first context with the path. |
| `ConnectionContexts.ConnectionContext.IsManagementClientShared` | packages/nesbus/src/atom-adapter/atom-client/src/clientEntityContext.ts:265-275 | The loop finds another context with the path if there is one. |
| `ConnectionContexts.ConnectionContext.Create` | packages/nesbus/src/atom-adapter/atom-client/src/clientEntityContext.ts:334-345 | One more context of the run: it takes the client of its path, or a new one. |
| `ConnectionContexts.ConnectionContext.StartClose` | packages/nesbus/src/atom-adapter/atom-client/src/clientEntityContext.ts:278-281 | A close does nothing without an open connection. |
| `ConnectionContexts.ConnectionContext.Unregister` | packages/nesbus/src/atom-adapter/atom-client/src/clientEntityContext.ts:317-323 | The context leaves the dictionary before sharing is checked, and an unshared client is closed. |
| `ConnectionContexts.ConnectionContext.FinishClose` | packages/nesbus/src/atom-adapter/atom-client/src/clientEntityContext.ts:320-325 | The close ends after that. |
| `MessageConversion.ToAmqpMessage` | packages/nesbus/src/atom-adapter/atom-client/src/serviceBusMessage.ts:301-373 | Refuses exactly the overlong ids and keys, in this order; otherwise the AMQP message carries every field. |
| `MessageConversion.FromAmqpMessage` | packages/nesbus/src/atom-adapter/atom-client/src/serviceBusMessage.ts:455-558 | Throws exactly without an enqueue time; otherwise restores fields, the broker stamps and the expiry. |
| `MessageConversion.RoundTrip` | packages/nesbus/src/atom-adapter/atom-client/src/serviceBusMessage.ts:301-558 | Sending and receiving restores every sendable field exactly unless the time to live is the maximum, which is dropped. |
| `MessageConversion.DecodeEncode` | packages/nesbus/src/atom-adapter/atom-client/src/serviceBusMessage.ts:455-558 | Whatever the broker adds, decoding restores what was encoded. |
| `MessageConversion.SendAgain` | packages/nesbus/src/atom-adapter/atom-client/src/serviceBusMessage.ts:301-373 | A received message is accepted again and is the same on the wire. |
| `MessageConversion.SameOnTheWire` | packages/nesbus/src/atom-adapter/atom-client/src/serviceBusMessage.ts:301-373 | Two messages are the same on the wire exactly when they differ at most in a maximal time to live. |
| `MessageConversion.ExpiryTimesSaturate` | packages/nesbus/src/atom-adapter/atom-client/src/serviceBusMessage.ts:343-352 | With a time to live other than the maximum both expiry times are sums that stop at their limit and the time of sending goes along; otherwise none of them is set. |
| `MessageConversion.RefusedExactly` | packages/nesbus/src/atom-adapter/atom-client/src/serviceBusMessage.ts:309-366 | A message is refused exactly when its session id, message id, partition key or via partition key is a text of more than 128 characters, and the first of these is named. |
| `MessageConversion.WireNames` | packages/nesbus/src/atom-adapter/atom-client/src/serviceBusMessage.ts:301-373 | Label, sessions, keys and schedule travel as subject, groups and annotations, the other fields under their own names, and nothing else is set. |
| `SchemaBuild.Build` | packages/goosetyped/src/store/schema-container.ts:155-170 | Terminates on every graph, cycles included, and leaves everything built before as it was. |
| `SchemaBuild.BuildsTheUnion` | packages/goosetyped/src/store/schema-container.ts:155-231 | For an acyclic graph a built container has exactly the properties of its own, of all ancestors and mixins transitively, and the soft keys, and the options that the nearest container decides. |
| `SchemaBuild.AnyOrderBuildsRight` | packages/goosetyped/src/store/schema-container.ts:155-170 | In whatever order containers are built, everything built is right. |
| `SchemaBuild.BuiltForGood` | packages/goosetyped/src/store/schema-container.ts:156-158 | A built container stays what it is, whatever is built later and whatever cycles there are. |
| `SchemaBuild.NearestDecides` | packages/goosetyped/src/store/schema-container.ts:41-45 | An option is the own one, else that of the nearest base that resolves it, else that of the first mixin that does. |
| `SchemaBuild.OwnPropertiesKept` | packages/goosetyped/src/store/schema-container.ts:199-202 | Whatever cycles there are, a container keeps its own properties. |
| `SchemaBuild.RingMisses` | packages/goosetyped/src/store/schema-container.ts:191-197 | In a cycle of mixins of any length the exact properties of each container: those of itself and of the ones after it, and of the first one only what is no column. |
| `SchemaBuild.MutualMixinsMiss` | packages/goosetyped/src/store/schema-container.ts:191-197 | Of two classes that mix each other in, whatever they contain, the outer one gets everything and the inner one has the columns of the outer if and only if it has them for another reason. |
| `SchemaProps.DefinitionExactly` | packages/goosetyped/src/store/schema-container.ts:38-63 | In any graph, cyclic or not, the one definition that each property of a newly built container has: the own one if it is declared without a column; else the column of the last mixin that has one; else that of the first base that has the property; else its own or implied column; else the plain property of the last mixin, else of the first base. |
| `SchemaContainers.GtSchemaStore.BuildContainer` | packages/goosetyped/src/store/schema-container.ts:155-231 | The recursive method computes the build of the specification in place. |
| `SchemaContainers.GtSchemaStore.ExtendAllFrom` | packages/goosetyped/src/store/schema-container.ts:178-197 | The loop over bases, and the one over mixins. |
| `SchemaContainers.GtSchemaStore.ExtendContainer` | packages/goosetyped/src/store/schema-container.ts:38-63 | Builds the base first, then copies what the target lacks. |
| `SchemaContainers.GtSchemaStore.CopyOptions` | packages/goosetyped/src/store/schema-container.ts:41-45 | The loop copies exactly the options that the target lacks. |
| `SchemaContainers.GtSchemaStore.CopyProps` | packages/goosetyped/src/store/schema-container.ts:47-62 | The loop copies exactly the properties that are taken over, with their columns. |
| `SchemaContainers.GtSchemaStore.ApplyColumns` | packages/goosetyped/src/store/schema-container.ts:199-231 | Every column and every soft key becomes a property. |
| `ConnectionProtocol.CompiledAtMostOnce` | packages/goosetyped/src/store/schema-container.ts:155-170 | Whatever happens to the connection, no model is compiled twice. |
| `ConnectionProtocol.BasesFirst` | packages/goosetyped/src/connection/connection-store.ts:126-152 | On every run that loses no listener, each decorated model is compiled or waits, bases come before derived classes, and once models can be built all are compiled. |
| `ConnectionProtocol.NeverLosesExactly` | packages/goosetyped/src/connection/connection-store.ts:112-124 | A run loses no listener if and only if after every part of it each decorated model is compiled, or waits while nothing can be built. |
| `ConnectionProtocol.RootIsDefined` | packages/goosetyped/src/store/schema-container.ts:279-290 | On every run that loses no listener each discriminator child is compiled after its root, and no compilation throws. |
| `ConnectionProtocol.ChildrenOfDroppedFail` | packages/goosetyped/src/store/schema-container.ts:279-290 | Once the root is dropped none of its children is ever compiled. |
| `ConnectionProtocol.StaysReadyNeverLoses` | packages/goosetyped/src/connection/connection-store.ts:112-124 | While a ready connection stays ready and none closes with models waiting, no listener is lost. |
| `ConnectionProtocol.CloseDropsExactly` | packages/goosetyped/src/connection/connection-store.ts:120-123 | A close drops exactly the waiting models. |
| `ConnectionProtocol.DroppedForever` | packages/goosetyped/src/connection/connection-store.ts:120-123 | A dropped model is never compiled on any later run. |
| `ConnectionProtocol.SilentReconnectLosesBase` | packages/goosetyped/src/connection/connection-store.ts:117-119 | After a reconnect, decorating a derived class builds a waiting base without compiling it, and throws exactly when its root is one of the models that wait. |
| `ConnectionProtocol.SilentReconnectIsReachable` | packages/goosetyped/src/connection/connection-store.ts:117-119 | The run that leads there: managed and connected, disconnected, decorated. |
| `ConnectionReady.ReadyExactly` | packages/goosetyped/src/connection/connection-store.ts:60-124 | When a connection becomes ready and when it stops being ready, event by event. |
| `ConnectionReady.CanManageExactly` | packages/goosetyped/src/connection/connection-store.ts:90-124 | After any run an id can be managed if and only if it never was, its last factory failed or its last connection closed. |
| `ConnectionReady.WaitingAreCompiled` | packages/goosetyped/src/connection/connection-store.ts:112-152 | From every state in which no listener was lost, connecting leads to all decorated models being compiled; after a reconnect that notifies nobody, the listener of an earlier connection of the id does it. |
| `ConnectionReady.StopsAtThrow` | packages/goosetyped/src/connection/connection-store.ts:126-152 | Of the notified listeners those before the first that throws are built; it alone fails, and none after it is compiled. |
| `ConnectionStores.GtConnectionStore.CanBuild` | packages/goosetyped/src/connection/connection-store.ts:60-77 | An immediate connection can build once it is managed, the other kind while it is connected. |
| `ConnectionStores.GtConnectionStore.WhenReadyToBuild` | packages/goosetyped/src/connection/connection-store.ts:79-88 | Adds a listener to its connection id and to no other. |
| `ConnectionStores.GtConnectionStore.CompileModel` | packages/goosetyped/src/store/schema-container.ts:279-290 | A discriminator child is compiled with the model of its root, and throws if there is none. |
| `ConnectionStores.GtConnectionStore.Build` | packages/goosetyped/src/store/schema-container.ts:155-170 | Builds once, or waits for the connection. |
| `ConnectionStores.GtConnectionStore.Decorate` | packages/goosetyped/src/store/schema-container.ts:133-141 | A decorated model is built or waits. |
| `ConnectionStores.GtConnectionStore.Manage` | packages/goosetyped/src/connection/connection-store.ts:90-98 | An id that is known is refused. |
| `ConnectionStores.GtConnectionStore.NotifyListeners` | packages/goosetyped/src/connection/connection-store.ts:126-152 | The loop runs the listeners in their order after forgetting them, up to the first one that throws; other ids are untouched. |
| `ConnectionStores.GtConnectionStore.ManageConnection` | packages/goosetyped/src/connection/connection-store.ts:112-124 | Notifies at once, or arms the connected event, exactly once. |
| `ConnectionStores.GtConnectionStore.OnConnected` | packages/goosetyped/src/connection/connection-store.ts:117-119 | Only an armed event notifies. |
| `ConnectionStores.GtConnectionStore.OnFactoryFailed` | packages/goosetyped/src/connection/connection-store.ts:104-107 | A factory that fails makes the id unknown again. |
| `ConnectionStores.GtConnectionStore.OnClose` | packages/goosetyped/src/connection/connection-store.ts:120-123 | Forgets the connection and its listeners. |

## Left out

- HTTP, Atom XML, signing, ARM adapters and the AMQP wire encoding: service, link and broker are abstract.
- `MessageSender`, message sessions and the session manager, and the calculation of the renewal delay.
- Logging, dependency injection, decorators, discovery and the wording of errors.
- Streaming: deliveries after a link was closed in receiveAndDelete mode (`OnAmqpMessage` asks for an open link there), the automatic completion that follows a handler
  (it returns no credit), token renewal, and the wait between reconnect attempts.
- Streaming: `_onAmqpError` and `_onSessionError`, which only report and end the idle timer.
- MessageReceivers.MessageReceiver.OnAmqpMessage: it covers credit and handlers; the renewal timers of the same method are in LockRenewTimers.
- BatchProtocol.FinalActionAtMostOnce: the object is driven through `Receiver.receiveMessages`, so a call starts on a new object or on an open link; a second call on the link of a call that a detach ended before its credit was added is not modelled.
- BatchProtocol.CreditUntilFinal: a link dispatches nothing once it was closed on either side; maxMessageCount is not negative.
- LockRenewal.ClearAllEmpties: it needs that no id is reused early, as the orphan of a reused id is in no entry.
- ProvisioningSafety.CreatedAtMostOnce: for one configurator and sequential calls; concurrent verify calls can create twice, as RuleInterleaving shows for rules of one name.
- Provisioning: the functions that compute rules from a provision, and errors of gets other than being taken for absence. The service stores the parameters it is given, removes what lives under a deleted entity and rejects creations under a missing parent.
- SbConfigurators.SbConfigurator.VerifyRules: the source starts all rules at once; RuleInterleaving proves that any interleaving of rules with distinct names ends like this loop.
- RouteServer.TopicsFirst: sequence mode only; the parallel mode gives no order. It assumes names without colons, a service that starts without subscriptions whose topic is missing, and a topic that is not rejected.
- SbServers.SbServer.ExecuteRoute: the creation of the message handler, which follows the verification.
- BackoffRetry.AtMostRetriesPlusOne: for a whole retry count and a new message; RunsBounded has any count on the wire.
- BackoffClone: infinite counts, and user properties that are objects.
- BackoffClone.Message.CreateBackoffClone: what `Math.pow` answers for a count that is no natural number is a parameter.
- BackoffDelay.GrowsExactly: the distort factor is a natural number.
- Semaphores.HeldWithinLimit: a limit that is not a number, which makes every caller wait.
- SemaphoreUse: the function of a call is the event that ends it, and a release does not throw; the value of the promise is left out.
- ExpiringMaps: that expired entries are collected eventually, and the lock library.
- EntityContexts.SharedExactlyByPath: client ids are unique, as they are generated, and contexts are values; receivers and senders that a context closes first are one wait.
- MessageConversion.FromAmqpMessage: the lock token and the representation of the sequence number; a time to live that is not an integer.
- MessageConversion: the type checks of `getMessagePropertyTypeMismatchError`.
- SchemaProps.DefinitionExactly: the source of a property is named by the container whose decorator made it, and a class does not extend itself.
- SchemaBuild.BuildsTheUnion: embedded containers, hooks, query helpers, a version key of false, and builds that throw.
- The detection of discriminators: the root of a child is given, the discriminator key of a child enters the model as one of its own options, and the root's map of children is not modelled.
- SchemaContainers.GtSchemaStore.BuildContainer: containers are values in one map, so the mongoose schema beside them is not modelled.
- ConnectionProtocol.BasesFirst: the one build that throws is that of a child without the model of its root, and every class is evaluated after those it extends; promises of `manage` are not modelled.
- ConnectionStores.GtConnectionStore.Build: the classes that a model extends are marked as built together with it; how their properties are copied is in SchemaBuild.

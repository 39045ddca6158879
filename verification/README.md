# Verified model of the CometD client, the worker boot order and provider decoration

This project models, in Dafny, the parts of the repository that work as protocols or as rewriting algorithms, and
proves what they keep over every run and every input.

* **The Bayeux client** (`BayeuxSession`, `CometD` and `Callbacks`). The state machine of handshake, connect, retry,
  re-handshake and disconnect, with nested batches, the internal handshake batch, the backoff, the one slot for a
  scheduled operation and the callback tables. Application calls, timers and transport reports are events; the theorems
  are about every run from a new client: `SessionSafety` (one operation, nothing unidentified), `SessionOrder` (order of
  messages), `SessionProgress` (the retry loop, exactly when steps throw), `SessionProtocol` (the protocol as a table of
  reports and what follows each), `SessionEffects` (what is sent, and exactly when), `SessionCallbacks` (what calls
  back), `SessionBackoff` (delays) and `SessionEndings` (disconnection and restart).
* **The request transports** (`RequestScheduling`, `RequestTransport`, `RequestEffects`). One reserved long poll and
  N - 1 ordinary slots, an overflow queue with prefix coalescing, timeouts that race late replies, and the asynchronous
  drain after a failure.
* **The two together** (`LongPolling`). The client on top of a request transport, which it never asks for a second long
  poll.
* **The WebSocket transport** (`WebSocketSessions`, `WebSocketTransport`, `WebSocketEffects`, on `Strings`). Envelopes under
  comma-joined keys of unanswered ids, message timeouts, and connecting, open and stale sockets.
* **URL splitting** for callback polling (`UrlSplitting`).
* **Channels** (`Channels`). Listener lookup by Channel Globbing of the Bayeux Protocol Specification 1.0, and the
  subscribe and unsubscribe messages that a table with holes gives rise to.
* **Boot order** (`InjectionGraph`, `BootOrder`, `ServiceLists`, `BootAnalysis`, `WorkerInstance`). The scan of the
  injection graph, the reversed layers, the de-duplication that splices while it iterates, the lists of services to
  provide, and the hooks that `configure` runs.
* **Provider decoration** (`Decoration`, `ProviderRegistry`). Renaming providers in place so that decorators chain,
  with an injector in which the last provider of a token wins.

Each stateful object of the source is a class. Its methods have the loops and updates of the source and are proved to
compute a function on a value of type `State` (or a sequence); the laws are proved about that function and its runs.
`Wrappers` holds the `Option` and `Result` types, and `Utils` the array helpers.

## Where the code differs from what one would expect

The model follows the code. Each of these is a theorem below.

* The documented retry delays 1, 3, 6, 10, 15 hold for handshakes. A `/meta/connect` schedules its retry before it
  increases the backoff and so lags one increment behind (`ConnectRetriesFromReset`).
* `disconnect()` does not cancel a scheduled retry. If that retry is a handshake, the client starts a session again
  (`DisconnectEndsSession` says exactly when, `DisconnectedClientHandshakes` is such a run).
* Calling `handshake()` on a client that still has an operation scheduled or in flight gives it two
  (`RestartNeedsIdleClient`, with the run `BusyRestart`).
* With `maxConnections` below 2 no ordinary message is ever transmitted (`NoSlotStrandsEverything`).
* On a channel that itself ends in a wildcard some listeners are notified twice (`PatternsDistinctExactlyWhen`).
* Releasing a subscription handle twice can send an unsubscribe with none due (`ReleasedTwiceExactlyWhen`).
* Advice `reconnect: 'handshake'` on a successful reply throws and ends the retry loop (`StepThrowsExactlyWhen`, with
  the run `AdviceCanThrow`). So does a handshake reply after the disconnection (`LateHandshakeReplyThrows`).
* Decorating a token that has no provider is accepted and leaves the token unresolvable
  (`UndecoratableStaysUnresolved`; `ResolvesExactlyWhen` says exactly when a token resolves).

## Model

| member | source | states |
|---|---|---|
| BootOrder.BootOrderIsTopological | packages/common/src/worker/di.ts:186-233 | On every acyclic injection graph, in the flattened boot layers every injected custom dependency comes before all of its dependants |
| BootOrder.BootOrderIsComplete | packages/common/src/worker/di.ts:282-313 | The boot order holds each exposed service and each booted service that some exposed one reaches, exactly once, and nothing else |
| BootOrder.BootedHaveProviders | packages/common/src/worker/di.ts:318-327 | Every service that boots was also recorded as custom or platform by the same scan, so it has a provider |
| BootOrder.ScanSettles | packages/common/src/worker/di.ts:186-216 | Scanning from an existing (or the next) layer puts the service there, moves nothing placed before, and places each dependency earlier in the same layer or deeper |
| BootOrder.LayersBoot | packages/common/src/worker/di.ts:289-290 | Settled layers, run from the deepest up, boot every dependency before its dependants |
| BootOrder.FlattenDedup | packages/common/src/worker/di.ts:291-307 | De-duplicating layer by layer is keeping the first occurrence over the whole flattened sequence |
| BootOrder.DedupKeeps | packages/common/src/worker/di.ts:291-307 | Keeping first occurrences repeats nothing and loses no service |
| BootOrder.ScanCovers | packages/common/src/worker/di.ts:186-233 | Whatever a scan puts in a layer it also records for a provider |
| ServiceLists.ListsAreRight | packages/common/src/worker/di.ts:186-225 | On every acyclic graph, read off the graph alone: a service is listed as platform if and only if it is one and is exposed or a parameter of a scanned service; as custom if and only if it is exposed and no platform service, or is such a parameter and boots. The lists are disjoint if platform services have no parameters |
| ServiceLists.BootsExactly | packages/common/src/worker/di.ts:186-313 | A service boots if and only if it is exposed, or is a parameter of a scanned service and has parameters itself or is no platform service |
| ServiceLists.OneDependency | packages/common/src/worker/di.ts:186-216 | The smallest graph: a custom parameter boots and is made from its class, a platform parameter is injected and does not boot |
| BootAnalysis.FixpointIsDedup | packages/common/src/worker/di.ts:291-307 | Layers in which a pass finds no match are exactly their own first occurrences |
| BootAnalysis.SpliceKeepsDedup | packages/common/src/worker/di.ts:298-303 | Splicing out a run of already seen services changes no first occurrence, and removes that many elements |
| BootAnalysis.ScanOutput.RegisterInBootLayers | packages/common/src/worker/di.ts:227-233 | Pushes a new layer or extends an existing one |
| BootAnalysis.ScanOutput.RegisterCloudService | packages/common/src/worker/di.ts:218-225 | Appends the service to the platform list if it is a platform service, to the custom list otherwise |
| BootAnalysis.ScanOutput.ClassifyParams | packages/common/src/worker/di.ts:192-208 | Separates the parameters into those to scan, those to boot and those of the platform, in order |
| BootAnalysis.ScanOutput.ScanService | packages/common/src/worker/di.ts:186-216 | The recursive scan terminates on acyclic graphs and computes the specified layers |
| BootAnalysis.ScanOutput.SpliceSeen | packages/common/src/worker/di.ts:298-304 | The innermost loop: each repeated match splices one element, even after the slot has run empty |
| BootAnalysis.ScanOutput.SweepLayer | packages/common/src/worker/di.ts:297-305 | One layer of a pass, over the keys it had when the pass reached it |
| BootAnalysis.ScanOutput.Sweep | packages/common/src/worker/di.ts:294-306 | A pass keeps the first occurrences; with a match it removes at least one element, without one the layers are their own first occurrences |
| BootAnalysis.ScanOutput.RemoveDuplicates | packages/common/src/worker/di.ts:291-307 | The loop terminates and its result is keeping the first occurrence of every service, layer boundaries and order kept |
| BootAnalysis.ScanOutput.AnalyzeService | packages/common/src/worker/di.ts:282-313 | The whole analysis yields the specified boot layers and two lists without repetitions: the platform services exposed or asked for, and the services to be made from their classes |
| WorkerInstance.DependenciesBootFirst | packages/worker/src/utils/worker-instance.ts:60-77 | On analysed layers, whatever layers follow, when a hook runs the hooks of all its bootable dependencies have run and succeeded |
| WorkerInstance.HooksRunOnce | packages/worker/src/utils/worker-instance.ts:95-113 | No hook runs twice in one configuration, and only hooks of listed instances run |
| WorkerInstance.UntilFailurePrefix | packages/worker/src/utils/worker-instance.ts:60-77 | A run of hooks succeeds exactly if none of them fails; what follows a failure does not run |
| WorkerInstance.AllHooksRunOrOneFails | packages/worker/src/utils/worker-instance.ts:60-77 | A configuration succeeds if and only if no listed hook fails, and then every listed hook has run; otherwise the last hook that ran is the failing one, the one reported |
| WorkerInstance.TaskDispatcherWorkerInstance.Bootstrap | packages/worker/src/utils/worker-instance.ts:95-113 | Calls the hook of an instance not bootstrapped yet; a failing one is reported and not recorded |
| WorkerInstance.TaskDispatcherWorkerInstance.ConfigureLayer | packages/worker/src/utils/worker-instance.ts:63-66 | One layer: continues the calls of the layers above, up to the first failure |
| WorkerInstance.TaskDispatcherWorkerInstance.Configure | packages/worker/src/utils/worker-instance.ts:60-77 | Calls each hook once in layer order up to the first failure, returns its outcome and forgets what was bootstrapped |
| RequestScheduling.EachMessageInOnePlace | packages/cometd/lib/RequestTransport.js:19-165 | In every run a message sent once is in exactly one of flight, queue, pending failure or reported, and so is never reported twice |
| RequestScheduling.RunKeepsInv | packages/cometd/lib/RequestTransport.js:65-165 | Over every run: conservation of every message, consistent tracking, at most maxConnections - 1 ordinary requests, and a queue only behind full slots or a pending drain |
| RequestScheduling.StepConserves | packages/cometd/lib/RequestTransport.js:19-165 | Every step keeps the number of copies of every message |
| RequestScheduling.StepBounded | packages/cometd/lib/RequestTransport.js:65-126 | Every step keeps the bound on slots and the reason for a non-empty queue |
| RequestScheduling.OnlyConcurrentLongPollThrows | packages/cometd/lib/RequestTransport.js:83-92 | In every run a step throws exactly if it sends a second long poll; the mismatch throw is unreachable |
| RequestScheduling.RefusedLongPollHasUnreported | packages/cometd/lib/RequestTransport.js:167-181 | A long poll is refused only while some message of an earlier one is unreported |
| RequestScheduling.FinishingDropsLoad | packages/cometd/lib/RequestTransport.js:94-126 | Every completion, failure, timeout or drain of an ordinary request strictly lowers requests + queue + drains |
| RequestScheduling.SomeStepFinishes | packages/cometd/lib/RequestTransport.js:94-165 | While anything is unreported some finishing step is possible |
| RequestScheduling.EverythingCanBeReported | packages/cometd/lib/RequestTransport.js:94-165 | From every reachable state, at most as many finishing steps as the load report every ordinary message |
| RequestScheduling.CoalesceTakesLongestPrefix | packages/cometd/lib/RequestTransport.js:19-33 | Coalescing takes exactly the longest queue prefix of equal url and sync, in order |
| RequestScheduling.FailureFreeRunsAreFifo | packages/cometd/lib/RequestTransport.js:65-111 | In runs without failures what was transmitted followed by the queue is what was submitted |
| RequestScheduling.NoSlotStrandsEverything | packages/cometd/lib/RequestTransport.js:73-80 | With fewer than two connections nothing is ever transmitted: everything submitted stays queued |
| RequestEffects.EventsTell | packages/cometd/lib/RequestTransport.js:49-165 | In every run each event adds exactly its own report: the outcome the network brought, the timeout, or the failure of a previous request; the word of the network on a request that timed out adds none |
| RequestEffects.ReportsAreCaused | packages/cometd/lib/RequestTransport.js:145-165 | In every run every report was caused by exactly one event, which brought just that outcome for just that request |
| RequestEffects.SubmitStartsOrQueues | packages/cometd/lib/RequestTransport.js:65-81 | An envelope takes a free slot and starts at once, or waits at the end of the queue |
| RequestEffects.LongPollStartsOrThrows | packages/cometd/lib/RequestTransport.js:167-181 | A long poll starts if there is none, and is refused without a trace otherwise |
| RequestEffects.LongPollEnds | packages/cometd/lib/RequestTransport.js:83-92 | The end of a long poll frees its place and touches nothing else |
| RequestEffects.LateWordIgnored | packages/cometd/lib/RequestTransport.js:145-165 | The word of the network on a request that timed out changes nothing |
| RequestEffects.MismatchThrows | packages/cometd/lib/RequestTransport.js:83-92 | The end of another long poll than the one in flight throws and leaves slots, queue and reports as they were |
| RequestEffects.SuccessStartsNext | packages/cometd/lib/RequestTransport.js:94-111 | The slot of a successful request goes to the first waiting envelope, merged with all that may join it, in order; those behind keep waiting |
| RequestEffects.FailureDrainsNext | packages/cometd/lib/RequestTransport.js:112-124 | After a failure, a timeout or a drain nothing starts, and the first waiting envelope is put aside to fail next |
| RequestEffects.TimersAreForAsync | packages/cometd/lib/RequestTransport.js:35-63 | In every run the pending timeouts are exactly those of the asynchronous requests in flight |
| RequestTransport.Transport.CoalesceEnvelopes | packages/cometd/lib/RequestTransport.js:19-33 | The while loop computes the specified coalescing and leaves the rest of the queue |
| RequestTransport.Transport.SendRequest | packages/cometd/lib/RequestTransport.js:35-63 | Transmits a request and, unless it is synchronous, starts its timeout |
| RequestTransport.Transport.EnqueueOrSend | packages/cometd/lib/RequestTransport.js:65-81 | Takes a slot if one is free, queues otherwise |
| RequestTransport.Transport.CompleteRequest | packages/cometd/lib/RequestTransport.js:94-126 | Frees the slot and, with a queue, sends the coalesced next envelope or schedules its failure |
| RequestTransport.Transport.MetaConnectComplete | packages/cometd/lib/RequestTransport.js:83-92 | Frees the long poll, or throws on another one |
| RequestTransport.Transport.OnWireReport | packages/cometd/lib/RequestTransport.js:145-165 | A success, empty success or failure of the network: reported unless the request has expired; a long poll mismatch throws and leaves the slots as they were |
| RequestTransport.Transport.OnTimer | packages/cometd/lib/RequestTransport.js:49-61 | A timeout expires the request, completes it and reports the failure; a long poll mismatch throws and leaves the slots as they were |
| RequestTransport.Transport.OnDrain | packages/cometd/lib/RequestTransport.js:115-123 | The asynchronous failure of a queued envelope; a long poll mismatch throws and leaves the slots as they were |
| RequestTransport.Transport.SendLongPoll | packages/cometd/lib/RequestTransport.js:167-181 | Sends a long poll, or throws while one is in flight |
| RequestTransport.Transport.SendEnvelope | packages/cometd/lib/RequestTransport.js:183-189 | Sends an envelope as a long poll or as an ordinary request |
| Callbacks.CallbacksFireAtMostOnce | packages/cometd/lib/CometD.js:734-772 | In every run each callback fires at most once, even if its message is reported repeatedly |
| Callbacks.RemoteCallFiresOnce | packages/cometd/lib/CometD.js:1578-1634 | In every run of the table alone, once its reply, failure or timeout is handled, the callback of a remote call has fired exactly once |
| Callbacks.TimedCallsCanTimeOut | packages/cometd/lib/CometD.js:1600-1622 | A timed remote call that has not called back can time out, and then calls back |
| Callbacks.NextConsistent | packages/cometd/lib/CometD.js:288-291 | Every event keeps ids fresh, entries present exactly while waiting, and timers matched with calls |
| SessionSafety.OneOperationAtATime | packages/cometd/lib/CometD.js:550-925 | In every run at most one of scheduled operation, handshake in flight and /meta/connect in flight exists, and only application messages wait in the queue |
| LongPolling.LongPollNeverRefused | packages/cometd/lib/RequestTransport.js:167-181 | In every run of the client on a request transport, with timeouts, lost requests, disconnections and resets, what the client sends is accepted: the concurrent long poll throw is unreachable |
| LongPolling.RunKeeps | packages/cometd/lib/RequestTransport.js:167-181 | In every such run the long poll of the transport is a /meta/connect that the client waits for |
| LongPolling.StepLeaves | packages/cometd/lib/CometD.js:420-482 | The messages handed to the transport by a step are exactly those it adds to what is in flight and delivered |
| LongPolling.LongPollHappens | packages/cometd/lib/CometD.js:550-571 | A run in which an accepted session has its long poll in flight |
| SessionSafety.NothingUnidentifiedIsSent | packages/cometd/lib/CometD.js:420-490 | In every run no publish, subscribe, unsubscribe or remote call reaches the transport without a client id, and messages wait only in an open batch, in the internal batch or on a disconnected client |
| SessionSafety.StepReady | packages/cometd/lib/CometD.js:629-818 | Every step keeps: disconnected, or internal batch on, or client id set |
| SessionOrder.MessagesLeaveInOrder | packages/cometd/lib/CometD.js:484-545 | In every run, what was sent followed by the queue is what was submitted and not failed, in submission order, through nested batches, the handshake batch and re-handshakes |
| SessionOrder.DisconnectOrder | packages/cometd/lib/CometD.js:587-606 | A disconnection fails exactly the waiting messages, the last of those submitted and not failed |
| SessionProgress.SessionCallbacksFireOnce | packages/cometd/lib/CometD.js:738-772 | In every run of the whole client no callback fires twice, and a remote call with a callback is waiting or has called back |
| SessionProgress.RemoteCallsFireOnce | packages/cometd/lib/CometD.js:754-772 | In every run of the client, once the timeout, data or refusal of a remote call is handled its callback has fired exactly once, for the rest of the run |
| SessionProgress.RetryLoopNeverStalls | packages/cometd/lib/CometD.js:774-925 | In every run without throws and dropped operations, a client that is not disconnected has an operation scheduled or in flight |
| SessionProgress.StepThrowsExactlyWhen | packages/cometd/lib/CometD.js:684-920 | A step throws if and only if a handshake finds no transport, a handshake reply comes after the transport was dropped, or the advice cannot be followed |
| SessionProtocol.ReportsFollowTable | packages/cometd/lib/CometD.js:774-947 | In every run each report of an operation does what the table of the protocol says: which operation is scheduled and after what delay, the client id taken, the internal batch ended, the session ended, or a throw |
| SessionProtocol.StatusTellsPhase | packages/cometd/lib/CometD.js:623-720 | In every run without throws and dropped operations the status tells the phase of the session; the internal batch of a client that is not disconnected is on if and only if a handshake is scheduled or in flight |
| SessionProtocol.ReportsKeepTransport | packages/cometd/lib/CometD.js:587-606 | Exactly which reports make the client drop its transport |
| SessionEffects.SubmissionsLeaveExactlyWhen | packages/cometd/lib/CometD.js:484-490 | In every such run, outside batches and with no handshake pending, a submitted message that the extensions pass reaches the transport at once, alone and in the name of the client, and nothing waits; otherwise it waits and nothing is sent |
| SessionEffects.BatchesLeaveExactlyWhen | packages/cometd/lib/CometD.js:535-545 | In every such run, ending the outermost batch sends all that waits, in order and in the name of the client, unless a handshake is pending; ending an inner one sends nothing |
| SessionEffects.AcceptanceFlushes | packages/cometd/lib/CometD.js:815-818 | An accepted handshake sends all that waited for it, in the name it brings |
| SessionEffects.HandshakesStart | packages/cometd/lib/CometD.js:623-702 | Starting or retrying a handshake forgets the client id, turns the internal batch on and sends one handshake without a client id, or throws without a transport |
| SessionEffects.ConnectsStart | packages/cometd/lib/CometD.js:550-571 | The time to connect sends one /meta/connect in the name of the client, and nothing once it has disconnected |
| SessionEffects.DisconnectsStart | packages/cometd/lib/CometD.js:1307-1343 | disconnect() sends one /meta/disconnect in the name of the client; a second one does nothing |
| SessionEffects.ReportsSendNothing | packages/cometd/lib/CometD.js:1036-1121 | No report makes the client send anything but what an accepted handshake lets go |
| SessionEffects.ApplicationReportsAreLocal | packages/cometd/lib/CometD.js:1036-1121 | The answer to a message of the application, and a message without one, change nothing of the session but its advice |
| SessionEffects.ConnectReportsTellConnected | packages/cometd/lib/CometD.js:894-925 | The client counts as connected exactly after a successful /meta/connect reply and until a failed one |
| SessionCallbacks.CallbacksFireOnce | packages/cometd/lib/CometD.js:746-752 | In every run, once the reply, refusal, failure or loss of its message is handled, a callback has fired exactly once, for the rest of the run |
| SessionCallbacks.FailedMessagesCallBack | packages/cometd/lib/CometD.js:599-605 | In every run, a message that leaves the queue without being sent has called back, its remote call too |
| SessionCallbacks.CallbacksAreStored | packages/cometd/lib/CometD.js:738-744 | A call with a callback stores it under the id of its message, unless an extension drops that message at once; no call and no timer fires or loses another |
| SessionCallbacks.RemoteCallsAreStored | packages/cometd/lib/CometD.js:1578-1634 | A remote call is stored with its callback and its timeout |
| SessionCallbacks.BatchesKeepCallbacks | packages/cometd/lib/CometD.js:420-442 | Sending a batch fires nothing, and forgets only the callbacks of messages that an extension drops |
| SessionCallbacks.ReportsConcernTheirMessage | packages/cometd/lib/CometD.js:746-772 | In every run a report touches no callback but that of its message and those of the queue |
| SessionEndings.RestartNeedsIdleClient | packages/cometd/lib/CometD.js:1292-1295 | At any point of any run, handshake() keeps one operation at a time if and only if none is scheduled or in flight, or an extension drops the handshake |
| SessionEndings.BusyRestart | packages/cometd/lib/CometD.js:1292-1295 | A run after which handshake() gives the client two operations |
| SessionEndings.RunBoundsIds | packages/cometd/lib/CometD.js:288-291 | In every run no message waiting or in flight has an id that is yet to be given |
| SessionEndings.DisconnectEndsSession | packages/cometd/lib/CometD.js:1307-1343 | In every run, after disconnect() the client stays disconnected until the next handshake() if and only if no retry of a handshake was scheduled |
| SessionEndings.DisconnectedClientHandshakes | packages/cometd/lib/CometD.js:1307-1343 | A run in which a client that called disconnect() handshakes again |
| SessionEndings.DisconnectLeavesRetryArmed | packages/cometd/lib/CometD.js:1307-1343 | disconnect() leaves a scheduled retry armed; when it fires the client stays disconnecting if and only if the retry was a /meta/connect |
| SessionEndings.AdviceCanThrow | packages/cometd/lib/CometD.js:821-838 | A run after which a successful handshake reply throws because of its advice |
| SessionEndings.LateHandshakeReplyThrows | packages/cometd/lib/CometD.js:790-796 | A run after which a handshake reply throws because the disconnection dropped the transport |
| SessionBackoff.IncreaseIsBackoffAfter | packages/cometd/lib/CometD.js:505-510 | One increase moves the backoff after n failures to that after n + 1 |
| SessionBackoff.BackoffCountsFailures | packages/cometd/lib/CometD.js:501-510 | In every run the backoff is that of the failures in a row since the last reset, n of them: min(n, ceil(max / inc)) * inc, always below max + inc |
| SessionBackoff.BackoffClosedForm | packages/cometd/lib/CometD.js:505-510 | The closed form of n increases from zero |
| SessionBackoff.HandshakeAt | packages/cometd/lib/CometD.js:781-784 | Before the i-th of failing handshake retries, at the cap or below, the backoff is that of i failures, and the delay that of i + 1 |
| SessionBackoff.ConnectAt | packages/cometd/lib/CometD.js:873-878 | Before the i-th of failing connect retries, at the cap or below, the backoff and the delay are those of i failures |
| SessionBackoff.HandshakeRetriesFromReset | packages/cometd/lib/CometD.js:774-788 | Below the cap the first n handshake retries wait n * interval + inc * n(n+1)/2 in all |
| SessionBackoff.ConnectRetriesFromReset | packages/cometd/lib/CometD.js:865-892 | Below the cap the first n connect retries wait n * interval + inc * n(n-1)/2 in all: one increment behind |
| CometD.Client.StampAndFilter | packages/cometd/lib/CometD.js:420-442 | The loop that splices while iterating stamps every message with the client id and drops those the extensions drop, with their callbacks |
| CometD.Client.FailMessages | packages/cometd/lib/CometD.js:998-1004 | Fails each message in turn |
| CometD.Client.Handle | packages/cometd/lib/CometD.js:1036-1121 | Every application call, timer and transport report has exactly the specified effect, and throws exactly when specified |
| Channels.NotifiesMatchingListenersOnce | packages/cometd/lib/CometD.js:345-390 | A message reaches exactly the live listeners whose pattern matches under Channel Globbing, each once unless the channel ends in a wildcard |
| Channels.PatternsMatch | packages/cometd/lib/CometD.js:372-390 | The patterns looked up are exactly the matching ones |
| Channels.PatternsDistinctExactlyWhen | packages/cometd/lib/CometD.js:376-388 | No pattern is looked up twice if and only if the last segment of the channel is no wildcard |
| Channels.WildcardChannelRepeats | packages/cometd/lib/CometD.js:372-390 | On a channel ending in a wildcard a live listener of that channel is notified more than once |
| Channels.NotifiedInOrder | packages/cometd/lib/CometD.js:372-390 | Listeners are notified in order: the channel itself, its one-segment glob, its recursive globs from the most to the least specific; those of one pattern as they were added |
| Channels.MessagesAlternate | packages/cometd/lib/CometD.js:1429-1517 | In every run with each handle released once, subscribe and unsubscribe messages alternate, and the last is a subscribe exactly if a subscription is live |
| Channels.ReleasedTwiceExactlyWhen | packages/cometd/lib/CometD.js:248-256 | Releasing a handle again keeps the alternation if and only if a live subscription remains |
| Channels.HandlesStayValid | packages/cometd/lib/CometD.js:1159-1193 | A handle keeps naming its entry until it is released, whatever holes others leave |
| Channels.EventsChangeOneEntry | packages/cometd/lib/CometD.js:1429-1517 | Adding appends one live entry and releasing removes just the entry of the handle; a message goes out exactly for the first entry of a channel and when a release leaves none |
| Channels.ListenerTable.Notify | packages/cometd/lib/CometD.js:345-370 | Calls the live listeners of one pattern in order, skipping holes |
| Channels.ListenerTable.NotifyListeners | packages/cometd/lib/CometD.js:372-390 | The loop over the prefixes notifies along the specified patterns |
| Channels.ListenerTable.AddListener | packages/cometd/lib/CometD.js:1159-1193 | Appends an entry; the handle is its index |
| Channels.ListenerTable.RemoveListener | packages/cometd/lib/CometD.js:248-256 | Leaves a hole |
| Channels.ListenerTable.FindSubscriptions | packages/cometd/lib/CometD.js:1123-1133 | True exactly if the channel has a live entry |
| Channels.ListenerTable.Subscribe | packages/cometd/lib/CometD.js:1429-1471 | Sends a subscribe only for the first entry of the channel |
| Channels.ListenerTable.Unsubscribe | packages/cometd/lib/CometD.js:1484-1517 | Sends an unsubscribe when no entry is left |
| UrlSplitting.SplitForUrl | packages/cometd/lib/CallbackPollingTransport.js:26-77 | Fails exactly if some single message is too long, and with the first such; otherwise the envelopes are the messages in order, non-empty, within the limit, and as few as possible |
| UrlSplitting.GreedyIsOptimal | packages/cometd/lib/CallbackPollingTransport.js:31-54 | The greedy cut uses no more chunks than any cut into contiguous chunks that fit |
| UrlSplitting.GreedyStaysAhead | packages/cometd/lib/CallbackPollingTransport.js:31-54 | Also against cuts of a longer list that ends with the messages |
| UrlSplitting.ChunksConcat | packages/cometd/lib/CallbackPollingTransport.js:58-77 | The chunks concatenate to the messages |
| UrlSplitting.FitsMonotone | packages/cometd/lib/CallbackPollingTransport.js:34-38 | A slice of what fits, fits |
| UrlSplitting.EncodedTogether | packages/cometd/lib/CallbackPollingTransport.js:34-38 | The length of an encoded array: a message and its brackets, and a pair of brackets saved for a comma when two arrays become one |
| UrlSplitting.MeasureChunks | packages/cometd/lib/CallbackPollingTransport.js:28-54 | The loop terminates with a greedy cut, or with the first message that is too long on its own |
| UrlSplitting.SliceEnvelopes | packages/cometd/lib/CallbackPollingTransport.js:58-77 | The first envelope and those sent after it are the chunks |
| Decoration.DecorationMeans | packages/user-management/src/common/configurer/Configurer.ts:221-254 | The decorated providers resolve every token to exactly what the registration means, read before any renaming: its provider's value wrapped by its own decorators in order, every dependency decorated likewise; and to nothing if it means nothing |
| Decoration.AcyclicResolves | packages/user-management/src/common/configurer/Configurer.ts:221-254 | Without a missing provider or a cyclic dependency below it, every token resolves after all decorators, to that meaning |
| Decoration.DecoratorsChain | packages/user-management/src/common/configurer/Configurer.ts:221-254 | If the dependencies of the token's provider and of its decorators resolve among the decorated providers, the token resolves to its value wrapped by its own decorators in order |
| Decoration.DependantsGetDecorated | packages/user-management/src/common/configurer/Configurer.ts:236-253 | Whoever depends on a decorated token, decorated itself or not, is built from the decorated value |
| Decoration.ResolvesExactlyWhen | packages/user-management/src/common/configurer/Configurer.ts:221-254 | After all decorators a token resolves if and only if it had a provider and the dependencies of that provider and of its decorators resolve |
| Decoration.UndecoratableStaysUnresolved | packages/user-management/src/common/configurer/Configurer.ts:221-254 | After all decorators a token that had no provider has no value, at any depth |
| Decoration.IndependentChain | packages/user-management/src/common/configurer/Configurer.ts:221-254 | If neither the provider nor the decorators depend on decorated tokens, the dependencies in that chain have their values from before |
| Decoration.OthersResolveAsBefore | packages/user-management/src/common/configurer/Configurer.ts:236-246 | Tokens whose dependencies avoid the decorated ones resolve as before |
| Decoration.RequirementsSurvive | packages/user-management/src/common/configurer/Configurer.ts:208-219 | Every requirement met before the decorators is met after them |
| Decoration.FilterKeepsResolution | packages/common/src/worker/di.ts:267-277 | Keeping one provider per token changes no resolution, because the last one wins |
| Decoration.FilterKeepsOne | packages/common/src/worker/di.ts:267-277 | The filtered providers provide different tokens |
| Decoration.FilterKeepsOrder | packages/common/src/worker/di.ts:267-277 | The providers kept stand in the order they stood in |
| ProviderRegistry.SimpleProviderRegistry.ApplyDecorator | packages/user-management/src/common/configurer/Configurer.ts:227-254 | The loop renames the providers of the token in place, and the decorating provider takes its name |
| ProviderRegistry.SimpleProviderRegistry.ApplyDecorators | packages/user-management/src/common/configurer/Configurer.ts:221-225 | The decorators are applied in registration order, each with a token of its own |
| ProviderRegistry.SimpleProviderRegistry.CheckValid | packages/user-management/src/common/configurer/Configurer.ts:214-219 | Returns exactly the requirements that no provider meets, in the order they were made |
| ProviderRegistry.SimpleProviderRegistry.Meets | packages/user-management/src/common/configurer/Configurer.ts:271-279 | True exactly if some provider provides one of the tokens |
| ProviderRegistry.SimpleProviderRegistry.GetProviders | packages/user-management/src/common/configurer/Configurer.ts:208-212 | Throws exactly if a requirement fails, before anything is decorated; otherwise all requirements hold of the decorated providers |
| ProviderRegistry.FilterProviders | packages/common/src/worker/di.ts:267-277 | The loop from the last provider back keeps the last one of every token, in order |
| WebSocketSessions.RunKeepsInv | packages/cometd/lib/WebSocketTransport.js:188-336 | Over every run: one of the two slots at most, every context holds exactly what waits there, each envelope fails at most once and only incomplete, timeouts match unanswered ids |
| WebSocketSessions.KeysPartitionUnanswered | packages/cometd/lib/WebSocketTransport.js:52-62 | After every run the ids under a key are exactly the unreplied ids of its envelope, no id is under two keys, and on an open socket the unanswered ids are those with a live timeout |
| WebSocketSessions.AnswerAllRemoves | packages/cometd/lib/WebSocketTransport.js:263-285 | A batch of replies removes exactly the replied ids and keeps every other with its envelope |
| WebSocketSessions.AnswerUnique | packages/cometd/lib/WebSocketTransport.js:268-283 | At most one key holds an id, so the search order does not matter |
| WebSocketSessions.ReplyArmed | packages/cometd/lib/WebSocketTransport.js:235-285 | Replies keep the timeouts equal to the unanswered ids |
| WebSocketSessions.OpeningArms | packages/cometd/lib/WebSocketTransport.js:214-228 | Opening the socket starts a timeout for every stored id |
| WebSocketSessions.ClosingSettles | packages/cometd/lib/WebSocketTransport.js:297-336 | Once its context closes an envelope has failed exactly once if one of its messages has no reply, and not at all otherwise |
| WebSocketSessions.SettledStays | packages/cometd/lib/WebSocketTransport.js:297-336 | An envelope that failed or was fully answered is never failed later, however often sockets close |
| WebSocketSessions.WaitingIsTimed | packages/cometd/lib/WebSocketTransport.js:149-178 | While an envelope waits on an open socket one of its ids has a timeout |
| WebSocketSessions.StaleForGood | packages/cometd/lib/WebSocketTransport.js:48-50 | A context that is neither current nor opening never becomes either again |
| WebSocketSessions.StaleChangesNothingElse | packages/cometd/lib/WebSocketTransport.js:118-136 | Events of stale sockets leave the current and the opening context as they are |
| WebSocketEffects.SendsStore | packages/cometd/lib/WebSocketTransport.js:188-212 | An envelope is recorded with its flag and waits in the context that takes it; its timeouts run if it was written, and a failed write or a socket that cannot be made leaves the context faulty |
| WebSocketEffects.OpensOrCloses | packages/cometd/lib/WebSocketTransport.js:100-116 | A socket that opens in time becomes current, with a timeout for each waiting id; any other is closed at once and its incomplete envelopes fail |
| WebSocketEffects.RepliesAnswer | packages/cometd/lib/WebSocketTransport.js:230-288 | Replies remove exactly those of their ids that wait on the context, from its keys and its timeouts; nothing fails |
| WebSocketEffects.ClosesFail | packages/cometd/lib/WebSocketTransport.js:297-336 | A close empties the context, fails each of its incomplete envelopes once and no other, and frees its slot |
| WebSocketEffects.AbortFailsCurrent | packages/cometd/lib/WebSocketTransport.js:364-368 | An abort fails exactly the incomplete envelopes of the current context, empties it with its timeouts, and leaves no current and no opening context; without a current context nothing fails |
| WebSocketEffects.ResetForgets | packages/cometd/lib/WebSocketTransport.js:27-36 | A reset forgets the current and the opening context and touches nothing that they hold |
| Strings.SplitJoin | packages/cometd/lib/WebSocketTransport.js:270-279 | Splitting a key gives back the ids it was joined from, when none has a comma |
| Strings.JoinSplit | packages/cometd/lib/WebSocketTransport.js:270-279 | Joining the parts of a key gives back the key |
| WebSocketTransport.Transport.StoreEnvelope | packages/cometd/lib/WebSocketTransport.js:52-62 | Stores the envelope under its joined ids, skipping messages without one |
| WebSocketTransport.Transport.WebSocketSend | packages/cometd/lib/WebSocketTransport.js:149-178 | A write that works starts a timeout for each id |
| WebSocketTransport.Transport.WebSocketConnect | packages/cometd/lib/WebSocketTransport.js:64-85 | Returns early while a socket is being opened; otherwise makes one or throws |
| WebSocketTransport.Transport.SendEnvelope | packages/cometd/lib/WebSocketTransport.js:188-212 | Stores, then writes, waits for the opening socket or opens one; an exception marks the context for a forced close |
| WebSocketTransport.Transport.OnOpen | packages/cometd/lib/WebSocketTransport.js:214-228 | Writes every stored envelope |
| WebSocketTransport.Transport.Opened | packages/cometd/lib/WebSocketTransport.js:100-116 | The context becomes current, or is closed if it is stale |
| WebSocketTransport.Transport.OnMessage | packages/cometd/lib/WebSocketTransport.js:230-295 | Clears the timeouts of the replied ids, then removes the ids from the envelopes |
| WebSocketTransport.Transport.RemoveMessage | packages/cometd/lib/WebSocketTransport.js:267-284 | The search for the key of one id |
| WebSocketTransport.Transport.SpliceKey | packages/cometd/lib/WebSocketTransport.js:270-280 | Moves the envelope to the key without the id, or removes it with its last id |
| WebSocketTransport.Transport.OnClose | packages/cometd/lib/WebSocketTransport.js:297-336 | Forgets a current context, empties it and fails each of its envelopes once |
| WebSocketTransport.Transport.AbortTransport | packages/cometd/lib/WebSocketTransport.js:364-368 | Closes the current context and resets |
| Utils.InArray | packages/cometd/lib/Utils.js:21-28 | The first index of an element, or -1 |

## Left out

- HTTP, sockets, JSON, logging and clocks: they are events and parameters. The network reports each request at most once; which timer fires next is free.
- User callbacks, listeners, extensions and `transport.send` are not re-entrant: each event runs to its end before the next one.
- Aliasing of JavaScript objects: requests, envelopes and WebSocket contexts are values told apart by a number, kept in the fields of the one object that mutates them.
- Extensions only pass or drop a message, by its id; one that rewrites channels or client ids is not modelled. Nor is the public `send`, which extensions may use to queue raw messages.
- `disconnect(abort)` and transport `abort`: the failures that an abort provokes arrive as later failure events of the session. `abort` and `reset` of the request transports drop queued envelopes on purpose, so they are not steps of `RequestScheduling`.
- `LongPolling` couples the client with one request transport for the whole run. A /meta/connect is reported only with its own request, and a report is handled before the next call or timer.
- CometD.Client.FailMessages: the notification of listeners, and the removal of a failed subscription from the listener table, are not part of it.
- CometD.Client.DropConnection: the `abort` of the transport arrives as later failures.
- CometD.Client.HandshakeSuccessful: the `reestablish` mark and the comparison of transports are left out; negotiation is one parameter.
- CometD.Client.AdoptAdvice: takes the advice already merged with the configured one, reduced to its interval and its `reconnect` field.
- CometD.Client.CloseBatch: an `endBatch` without a matching `startBatch`, which throws, is excluded.
- CometD.Client.StartHandshake: handshake properties, the listed transport types and `TransportRegistry` negotiation are one parameter, whether some transport is found.
- CometD.Client.SendConnectMessage: the `timeout: 0` advice of a first connect is not represented.
- Channels.ListenerTable.Subscribe: the removal of listeners after a failed subscribe reply, `clearSubscriptions` and `clearListeners` are not modelled.
- `resubscribe`, and the resubscription of `ClientHelper`, which keeps handles of its own.
- WebSocketTransport.Transport.OnOpen: writes on a socket that has just opened do not throw.
- WebSocketTransport.Transport.OnMessage: `replies` are the ids of the messages that count as replies; the close that follows a disconnect reply arrives as a close event.
- WebSocketTransport.Transport.SendEnvelope: messages carry distinct ids without commas, as the client gives them.
- Sticky reconnects, the `accept` flags, sub-protocols and the length of delays of the WebSocket transport.
- Callback polling beyond the splitting: the timeouts of a split envelope close over the unsplit one. A long poll is split only if its single message is, which cannot happen.
- UrlSplitting.SplitForUrl: the length of an encoded message is a parameter; lone surrogates, on which `encodeURI` throws, are not modelled.
- `scanProviders` and import layers: their layers are not reversed or de-duplicated by the source and are only appended after the analysed ones; `DependenciesBootFirst` covers any such layers.
- BootAnalysis.ScanOutput.ScanService: cyclic graphs, on which the source recurses for ever, are excluded.
- `clean()` of the worker instance, which repeats the loop of `configure` with another hook and another list.
- WorkerInstance.TaskDispatcherWorkerInstance.Configure: one instance per service, as the injector makes them; hooks either succeed or fail.
- ProviderRegistry.SimpleProviderRegistry.ApplyDecorator: decorators name a class or token, not a provider object, and every provider has an explicit `provide` token.
- ProviderRegistry.SimpleProviderRegistry.RegisterProvider: null providers, which are skipped, and null or error arguments, which throw, are not modelled.
- ProviderRegistry.SimpleProviderRegistry.GetProviders: a second call decorates again, with the same contract from the new state.
- The injector itself is only the function `Resolve`: values are told apart by how they were built, and sharing of instances does not show.
- Configuration lookup, error analyzers, authentication factories, progressions, the legacy platform, the command line tools and cryptography: small first-match or library code.

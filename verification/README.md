# HTX futures gateway: model and proofs

A Dafny model of the parts of the gateway that carry state, arithmetic or text formats. Objects that
change step by step are classes whose methods are proved to compute a function of their old state;
the theorems are about those functions and about all runs of them.

| files | about |
|---|---|
| `Recovery`, `RecoveryObjects` | the v5 drop copy and the v5 HTTP order entry of one account on their shared `Request` |
| `RecoveryHistory`, `RecoveryRuns`, `RecoverySteps`, `RecoverySessions` | what an observer sees, what every run keeps, what every event does in every reachable state, and what exactly is possible from a login on |
| `RateLimit` | the request throttle |
| `Subscriptions`, `SubscriptionObjects`, `SubscriptionRuns`, `SubscriptionSteps` | symbols, slices, streams, subscriptions and ids |
| `Arithmetic`, `Margin`, `Text`, `Cid`, `Json`, `Encoder`, `EncoderTheorems` | correlation ids and order requests |
| `Splitting`, `Channel`, `SubscribeMessages`, `Dispatch`, `Answers` | channel names, subscription requests, and which handler a message reaches |
| `Calendar`, `Signing`, `SigningTheorems` | timestamps, signed queries and the login message |

## What the proofs found

Properties that do not hold of the code for all inputs are stated with the exact condition under
which they do, and with a run or an input that shows the other case.

* A reconnect can end the process. If the periodic scan has asked for a batch that has not gone out
  when the connection is lost, the next download can take the answer to that batch for its own while
  new keys wait, and `drop_copy_5.cpp:620` is reached (`StaleKeysLeftExactly`, `ReconnectCanBeFatal`).
* The same answer can also pass unnoticed. If the new keys go out in a batch of their own before the
  drop copy's timer looks, READY is published while that batch is unanswered
  (`StaleOrdersCurrentExactly`, `ReadyOnOldBatch`, `OldBatchCanCount`).
* READY can rest on an open-orders answer to a request from before the reconnect
  (`OpenOrdersCurrentExactly`, `OldOpenOrdersCanCount`).
* A batch in which no key names a known order sends nothing, so nothing commits it. It stays in
  flight, blocks both requests, and no later session becomes READY (`ReadyPossibleExactly`,
  `EmptyBatchIsForever`, `StuckStays`).
* A second 429 is not backed off from if the first suspension has expired but was never cleared
  (`BackOffExactly`, `SecondRejectionIgnored`).
* Operator and topic of a private message may come in either order only for notifications and for
  messages in which neither is known (`OpAndTopic2`, `OpAndTopic5`).
* Request ids with a colon are not recovered by `split_cid`, although the printed ids stay distinct
  (`SplitUndoesPrint`, `PrintCidInjective`). A symbol with a dot is not recovered from its channel
  (`SymbolComesBack`).

## What is taken from the environment

* The library's download calls its callback once per stage, goes on at once if no reply is awaited,
  counts replies only in the current stage, and goes back to undefined on reset.
* The library's request slot: asking sets pending and forgets a response; a pending request goes out
  only if nothing is in flight for the account and the rate limiter agrees; a commit answers the
  request in flight, also if a newer one has been asked for meanwhile.
* Every HTTP request is answered by one asynchronous callback: after the handler that sent the request
  has returned, and never after the process has ended. (A callback from within the call at
  `order_entry_rest_5.cpp:802` would find the counter not yet raised.)
* Redirections end the process. Every other outcome, thrown exceptions included, goes to an error
  handler that only logs.
* A login is answered only after it was sent and once per connection.
* Which orders are stale and which keys name a known order is any answer at any time, and so are
  the rate limiter, the connections' refresh and all timers.
* The configured number of symbols per stream is positive. Accounts have isolated or cross margin
  (`controller.cpp:44-53` ends the process otherwise).
* Clocks do not start below zero. The signing functions and the URL encoding are arbitrary.
* Symbol slices: appended symbols go behind the old ones, a slice is a range of fixed size, and a
  starting position drops what comes before it.
* Switches on hashed texts compare the texts.

## Model

| member | source | states |
|---|---|---|
| `RecoveryObjects.DropCopy5.SetStatus` | `src/roq/htx_futures/gateway/drop_copy_5.cpp:141-161` | Publishes a connection status together with the current download stage. |
| `RecoveryObjects.DropCopy5.Download` | `src/roq/htx_futures/gateway/drop_copy_5.cpp:209-290` | The download callback: what each stage starts and how many replies it waits for; isolated margin ends the process. |
| `RecoveryObjects.DropCopy5.AdvanceDownload` | `src/roq/htx_futures/gateway/drop_copy_5.cpp:209-290` | The library download walks on to the next stage while a stage awaits no reply. |
| `RecoveryObjects.DropCopy5.CheckDownload` | `src/roq/htx_futures/gateway/drop_copy_5.cpp:353-362` | A reply counts only in the stage it belongs to and while a reply is awaited. |
| `RecoveryObjects.DropCopy5.SocketReady` | `src/roq/htx_futures/gateway/drop_copy_5.cpp:186-190` | The connection is up: a login is sent. |
| `RecoveryObjects.DropCopy5.SocketDisconnected` | `src/roq/htx_futures/gateway/drop_copy_5.cpp:168-173` | A disconnect publishes the status and takes the download back to undefined; the shared requests stay as they are. |
| `RecoveryObjects.DropCopy5.Auth` | `src/roq/htx_futures/gateway/drop_copy_5.cpp:316-331` | An accepted login begins the download; a refused one ends the process unless retries are configured. |
| `RecoveryObjects.DropCopy5.Sub` | `src/roq/htx_futures/gateway/drop_copy_5.cpp:333-366` | A subscription reply counts for the stage of its topic, its error code notwithstanding. |
| `RecoveryObjects.DropCopy5.InsertStaleOrders` | `src/roq/htx_futures/gateway/drop_copy_5.cpp:630-654` | The shared set becomes its union with the keys found, and the result says whether one of them was new. |
| `RecoveryObjects.DropCopy5.CheckQueue` | `src/roq/htx_futures/gateway/drop_copy_5.cpp:601-628` | Responses are looked at in the two waiting stages only; keys left behind end the process. |
| `RecoveryObjects.DropCopy5.CheckPeriodically` | `src/roq/htx_futures/gateway/drop_copy_5.cpp:656-663` | After the interval: scan, and ask for a batch exactly if a new key was found. |
| `RecoveryObjects.DropCopy5.Timer` | `src/roq/htx_futures/gateway/drop_copy_5.cpp:112-120` | The queue is checked before the periodic scan, and the scan happens only when ready. |
| `RecoveryObjects.OrderEntryREST5.DrainStaleOrders` | `src/roq/htx_futures/gateway/order_entry_rest_5.cpp:800-808` | One order-info request for every key that names a known order; the counter rises by their number and the set ends up empty. |
| `RecoveryObjects.OrderEntryREST5.SendStaleOrders` | `src/roq/htx_futures/gateway/order_entry_rest_5.cpp:798-809` | The batch is launched even if no key names a known order. |
| `RecoveryObjects.OrderEntryREST5.SendOpenOrders` | `src/roq/htx_futures/gateway/order_entry_rest_5.cpp:220-252` | The open-orders request goes out and is in flight. |
| `RecoveryObjects.OrderEntryREST5.Timer` | `src/roq/htx_futures/gateway/order_entry_rest_5.cpp:111-118` | Open orders before stale orders, each only if pending, permitted, and nothing is in flight. |
| `RecoveryObjects.OrderEntryREST5.Status` | `src/roq/htx_futures/gateway/order_entry_rest_5.cpp:196-205` | Connects and disconnects of the HTTP client change only whether the stream is ready. |
| `RecoveryObjects.OrderEntryREST5.OpenOrdersAck` | `src/roq/htx_futures/gateway/order_entry_rest_5.cpp:254-271` | Every outcome but a redirection commits the open orders. |
| `RecoveryObjects.OrderEntryREST5.OrderInfoAck` | `src/roq/htx_futures/gateway/order_entry_rest_5.cpp:380-403` | Every outcome but a redirection counts down, and the one that reaches zero commits; an answer at zero ends the process. |
| `RecoveryObjects.AccountStreams.Handle` | `src/roq/htx_futures/gateway/request.hpp:15-32` | The two streams on one shared object take exactly the steps all theorems about runs are about. |
| `RecoveryRuns.CounterIsOutstanding` | `src/roq/htx_futures/gateway/order_entry_rest_5.cpp:393-397` | In every run the counter is the number of order-info requests sent and not yet answered, and the fatal branch of the ack is never taken. |
| `RecoveryRuns.NoStaleOrderLost` | `src/roq/htx_futures/gateway/drop_copy_5.cpp:630-663` | In every run a key is in the set exactly if it was inserted and no batch has taken it since; the set is non-empty exactly while a batch is asked for; every batch takes the whole set. |
| `RecoveryRuns.CommitsAreExact` | `src/roq/htx_futures/gateway/order_entry_rest_5.cpp:380-403` | Every commit of the stale orders closes one batch that found an order: each of its keys was answered once, the last one just before. |
| `RecoveryRuns.LastAnswerCommits` | `src/roq/htx_futures/gateway/order_entry_rest_5.cpp:399-401` | After any run, whatever an answer says, it commits exactly if it is the last one outstanding. |
| `RecoveryRuns.TrafficIsOrderly` | `src/roq/htx_futures/gateway/request.cpp:16-18` | In every run at most one open-orders request or one batch is in flight, and a launch is possible exactly when nothing is. |
| `RecoveryRuns.ReadyOnlyWhenRecovered` | `src/roq/htx_futures/gateway/drop_copy_5.cpp:209-290` | In every run READY is published only after, in this order and in the same session: the accepted login, the four subscription replies, an open-orders answer, the scan, and the commit of a batch if the scan left keys; the published stages of a session rise strictly. Which batch that is: `RecoverySessions.StaleOrdersCurrentExactly`. |
| `RecoveryRuns.RunKeeps` | `src/roq/htx_futures/gateway/request.hpp:15-32` | Both invariants, on the session history and on the HTTP traffic, hold after every interleaving of events. |
| `RecoveryHistory.WireMeansExactCommits` | `src/roq/htx_futures/gateway/order_entry_rest_5.cpp:380-403` | A history the traffic automaton accepts contains no commit that does not close a batch. |
| `RecoveryHistory.AddedWaitsOrHanded` | `src/roq/htx_futures/gateway/drop_copy_5.cpp:630-654` | The keys that wait are exactly those inserted and not handed over since. |
| `RecoverySessions.ReadyPossibleExactly` | `src/roq/htx_futures/gateway/order_entry_rest_5.cpp:796-810` | From a login, READY can be reached in the session if and only if no batch without a known order is in flight. |
| `RecoverySessions.StaleKeysLeftExactly` | `src/roq/htx_futures/gateway/drop_copy_5.cpp:617-621` | From a login, the fatal branch for keys left behind can be reached in the session if and only if a batch is still asked for at login and no batch is stuck. |
| `RecoverySessions.OpenOrdersCurrentExactly` | `src/roq/htx_futures/gateway/drop_copy_5.cpp:264-268` | From a login, every READY of the session rests on an open-orders request sent after the subscriptions if and only if no such request was pending or in flight at login (or READY is out of reach). |
| `RecoverySessions.ReadyOnOldAnswer` | `src/roq/htx_futures/gateway/drop_copy_5.cpp:611-616` | The other case: a run of the session to READY on the answer to an older request. |
| `RecoverySessions.StaleOrdersCurrentExactly` | `src/roq/htx_futures/gateway/drop_copy_5.cpp:617-623` | From a login, every READY of the session rests on a scan without keys or on the commit of a batch sent after the scan if and only if no batch was asked for at login (or READY is out of reach). |
| `RecoverySessions.ReadyOnOldBatch` | `src/roq/htx_futures/gateway/drop_copy_5.cpp:617-623` | The other case: a run of the session to READY while the batch with the keys of the scan is in flight. |
| `RecoverySessions.OldBatchCanCount` | `src/roq/htx_futures/gateway/drop_copy_5.cpp:617-623` | A run from the start that ends with READY just published and the keys of its scan unanswered. |
| `RecoverySessions.ReconnectCanBeFatal` | `src/roq/htx_futures/gateway/drop_copy_5.cpp:617-621` | A run from the start that ends in that fatal branch: reconnect with a pending batch. |
| `RecoverySessions.OldOpenOrdersCanCount` | `src/roq/htx_futures/gateway/drop_copy_5.cpp:611-616` | A run from the start in which READY rests on an older open-orders answer. |
| `RecoverySessions.EmptyBatchIsForever` | `src/roq/htx_futures/gateway/order_entry_rest_5.cpp:801-808` | A run from the start to a login with a batch in flight that sent nothing. |
| `RecoverySessions.StuckStays` | `src/roq/htx_futures/gateway/order_entry_rest_5.cpp:801-808` | Such a batch stays in flight over any further events, reconnects included, and no later download becomes READY. |
| `RecoverySteps.ConnectionIsNoted` | `src/roq/htx_futures/gateway/drop_copy_5.cpp:168-190` | In every reachable state a new connection only notes the login, and a lost one only resets the download; the shared requests are untouched. |
| `RecoverySteps.LoginIsAnswered` | `src/roq/htx_futures/gateway/drop_copy_5.cpp:316-331` | An accepted login starts the download with the first subscription; a refused one ends the process, or changes nothing where a retry is configured. |
| `RecoverySteps.SubscriptionIsAcknowledged` | `src/roq/htx_futures/gateway/drop_copy_5.cpp:352-363` | The reply for each topic moves the download on exactly from its own stage, and the last of the four asks for the open orders. |
| `RecoverySteps.OtherTopicsAreNoted` | `src/roq/htx_futures/gateway/drop_copy_5.cpp:341-351` | Other topics change nothing. |
| `RecoverySteps.TimerWithoutEffect` | `src/roq/htx_futures/gateway/drop_copy_5.cpp:112-120` | The timer does nothing without a refreshed connection, and while the download waits for a reply. |
| `RecoverySteps.ScanAsksForAll` | `src/roq/htx_futures/gateway/drop_copy_5.cpp:611-616` | With the open orders answered, all keys found join the set, and a batch is asked for. |
| `RecoverySteps.KeysLeftAreFatal` | `src/roq/htx_futures/gateway/drop_copy_5.cpp:617-621` | A commit with keys in the set ends the process. |
| `RecoverySteps.ReadyScansPeriodically` | `src/roq/htx_futures/gateway/drop_copy_5.cpp:656-663` | The timer that publishes READY, and each later one, scans if the interval has passed, sets the next time, and asks for a batch exactly if a key is new. |
| `RecoverySteps.StatusIsReadiness` | `src/roq/htx_futures/gateway/order_entry_rest_5.cpp:196-205` | Connects and disconnects of the HTTP client leave everything in flight in flight. |
| `RecoverySteps.OpenOrdersGoFirst` | `src/roq/htx_futures/gateway/order_entry_rest_5.cpp:796-797` | A ready stream with nothing in flight sends the pending open-orders request, and no batch with it. |
| `RecoverySteps.NothingToLaunch` | `src/roq/htx_futures/gateway/order_entry_rest_5.cpp:111-118` | Not ready, not refreshed, something in flight, nothing pending or not permitted: the timer does nothing. |
| `RecoverySteps.BatchAsksForKnownOrders` | `src/roq/htx_futures/gateway/order_entry_rest_5.cpp:798-809` | A batch asks for exactly the keys that name a known order, counts them, empties the set, and is stuck exactly if there are none. |
| `RecoverySteps.OpenReplyCommits` | `src/roq/htx_futures/gateway/order_entry_rest_5.cpp:254-271` | Every outcome of the open-orders request but a redirection commits it. |
| `RecoverySteps.InfoReplyCounts` | `src/roq/htx_futures/gateway/order_entry_rest_5.cpp:380-403` | Every outcome of an order-info request but a redirection is counted, and the last one commits. |
| `RateLimit.Throttle.UpdateSuspension` | `src/roq/htx_futures/tools/throttle.cpp:82-99` | The suspension is cleared or extended as the reported budget says. |
| `RateLimit.Throttle.MessageHeader` | `src/roq/htx_futures/tools/throttle.cpp:75-122` | A header updates one parameter; only a changed remaining or reset value moves the suspension. |
| `RateLimit.Throttle.MessageEnd` | `src/roq/htx_futures/tools/throttle.cpp:124-146` | A 403 suspends for ten minutes at least, a 429 for five seconds if nothing is on record. |
| `RateLimit.ExhaustedMeansSuspended` | `src/roq/htx_futures/tools/throttle.cpp:82-121` | With clocks at a constant offset, in every run: while the budget is reported as exhausted the suspension lasts at least until the reported reset time. |
| `RateLimit.ActiveExactlyWhenExhausted` | `src/roq/htx_futures/tools/throttle.cpp:82-121` | In every run without 403 and 429 the suspension is zero exactly when the budget is not exhausted. |
| `RateLimit.DisabledNeverSuspends` | `src/roq/htx_futures/tools/throttle.cpp:83-85` | A disabled throttle never suspends. |
| `RateLimit.OnlyClearingLowers` | `src/roq/htx_futures/tools/throttle.cpp:86-88` | Only a changed header that ends exhaustion lowers the suspension, and it clears it. |
| `RateLimit.SuspensionLasts` | `src/roq/htx_futures/tools/throttle.cpp:82-146` | Over any run without such a header the suspension never shrinks. |
| `RateLimit.BlockedForTenMinutes` | `src/roq/htx_futures/tools/throttle.cpp:131-135` | A 403 keeps its ten minutes over any such run. |
| `RateLimit.BackOffExactly` | `src/roq/htx_futures/tools/throttle.cpp:136-142` | After a 429 the suspension lies in the future exactly if none was on record or the one on record has not expired. |
| `RateLimit.SecondRejectionIgnored` | `src/roq/htx_futures/tools/throttle.cpp:136-142` | A reachable state in which a 429 is not backed off from. |
| `RateLimit.HeaderNames` | `src/roq/htx_futures/tools/throttle.cpp:41-57` | The four header names are recognized in every capitalization, and no others. |
| `RateLimit.HeadersAreKept` | `src/roq/htx_futures/tools/throttle.cpp:100-121` | Each header sets its own parameter; an unchanged budget leaves the suspension alone. |
| `RateLimit.ChangedBudgetDecides` | `src/roq/htx_futures/tools/throttle.cpp:82-99` | In nanoseconds: a changed budget that is not exhausted clears the suspension, an exhausted one extends it to the reset time, or by five seconds if that has passed. |
| `RateLimit.StatusDecides` | `src/roq/htx_futures/tools/throttle.cpp:124-146` | In numbers: 403 means ten minutes, 429 five seconds with nothing on record, any other status nothing. |
| `RateLimit.SuspensionIsJustified` | `src/roq/htx_futures/tools/throttle.cpp:75-146` | In every run a suspension ends at a reported reset time, five seconds after an event, or ten minutes after a 403. |
| `SubscriptionObjects.SubscriptionStream.SubscribeTheme` | `src/roq/htx_futures/gateway/market_data.cpp:438-454` | One request per symbol, in order, with consecutive ids. |
| `SubscriptionObjects.SubscriptionStream.SubscribeThemes` | `src/roq/htx_futures/gateway/market_data.cpp:432-435` | All themes of the stream, each for all symbols. |
| `SubscriptionObjects.SubscriptionStream.SubscribeSymbols` | `src/roq/htx_futures/gateway/market_data.cpp:428-436` | Nothing for an empty slice, else all themes. |
| `SubscriptionObjects.SubscriptionStream.SubscribeNew` | `src/roq/htx_futures/gateway/market_data.cpp:163-167` | A ready stream subscribes the part of its slice from a position on; another one does nothing. |
| `SubscriptionObjects.SubscriptionStream.Ready` | `src/roq/htx_futures/gateway/web_socket.cpp:184-188` | A connected stream subscribes its whole slice. |
| `SubscriptionObjects.SubscriptionStream.Disconnected` | `src/roq/htx_futures/gateway/web_socket.cpp:167-171` | A disconnect only takes readiness away. |
| `SubscriptionObjects.StreamList.Ensure` | `src/roq/htx_futures/gateway/controller.cpp:306-314` | Streams are created, with the next stream ids, until there is one for every slice. |
| `SubscriptionObjects.StreamList.SubscribeNew` | `src/roq/htx_futures/gateway/controller.cpp:291-296` | Every stream is told to subscribe from a position on. |
| `SubscriptionObjects.Controller.EnsureSymbolSlices` | `src/roq/htx_futures/gateway/controller.cpp:304-324` | First the market-data streams, then the web-socket streams, out of one id counter. |
| `SubscriptionObjects.Controller.SymbolsUpdate` | `src/roq/htx_futures/gateway/controller.cpp:287-300` | Append, create what is missing, subscribe what is new. |
| `SubscriptionObjects.Controller.LearnSymbols` | `src/roq/htx_futures/gateway/controller.cpp:204-213` | Of a list of symbols, the ones not known yet, each once; all become known. |
| `SubscriptionObjects.Controller.ClientSubscribe` | `src/roq/htx_futures/gateway/controller.cpp:204-218` | A client subscription publishes its new symbols. |
| `SubscriptionObjects.Controller.LearnContracts` | `src/roq/htx_futures/gateway/rest.cpp:251-307` | Of a contract list, the new ones among the contracts that are live and not discarded. |
| `SubscriptionObjects.Controller.ContractInfo` | `src/roq/htx_futures/gateway/rest.cpp:248-317` | They are published if there are any. |
| `SubscriptionRuns.ReadyStreamHasItsSlice` | `src/roq/htx_futures/gateway/market_data.cpp:163-195` | In every run a ready stream has, in its current session, asked for every theme of every symbol of its slice exactly once, and for nothing else. |
| `SubscriptionRuns.SymbolsAreCovered` | `src/roq/htx_futures/gateway/controller.cpp:287-290` | In every run the known symbols are the published ones, the list has no duplicates, and the slices of the existing streams, joined, are the list. |
| `SubscriptionRuns.SlicesPartition` | `src/roq/htx_futures/gateway/shared.cpp:13` | The slices make up the list and none is over the configured maximum. |
| `SubscriptionRuns.SlicesDisjoint` | `src/roq/htx_futures/gateway/shared.cpp:13` | Different slices share no symbol. |
| `SubscriptionRuns.NewSymbolsAreNew` | `src/roq/htx_futures/gateway/rest.cpp:303-305` | The new symbols: no duplicates, none known before, and with the known ones all that were named. |
| `SubscriptionRuns.UsableExactly` | `src/roq/htx_futures/gateway/rest.cpp:257-302` | A symbol gets through exactly if some contract of that code is live and not discarded. |
| `SubscriptionRuns.RefreshIsIdle` | `src/roq/htx_futures/gateway/rest.cpp:303-313` | A refreshed contract list without new usable symbols changes nothing. |
| `SubscriptionRuns.TableCount` | `src/roq/htx_futures/gateway/market_data.cpp:428-475` | A table of themes and symbols without duplicates holds each pair once. |
| `SubscriptionRuns.RunKeeps` | `src/roq/htx_futures/gateway/controller.cpp:287-324` | The invariant on symbols, streams, sessions and ids holds after every interleaving. |
| `SubscriptionRuns.StreamIdsAreDistinct` | `src/roq/htx_futures/gateway/controller.cpp:304-324` | In every run the 16-bit ids of two streams coincide exactly if their places in the order of creation differ by a multiple of 65536. |
| `SubscriptionRuns.IdsAreDistinct` | `src/roq/htx_futures/gateway/market_data.cpp:81` | Up to 65535 streams have different ids, and while none has sent more than a million requests, requests of different streams have different ids. |
| `SubscriptionRuns.OwnIdsAreDistinct` | `src/roq/htx_futures/gateway/web_socket.cpp:224` | Within a stream ids never repeat, over all sessions. |
| `SubscriptionSteps.ClientSymbolsArePublished` | `src/roq/htx_futures/gateway/controller.cpp:204-218` | After a client subscription exactly the symbols published before and the ones named are published, and each is in the slice of a stream. |
| `SubscriptionSteps.ContractsArePublished` | `src/roq/htx_futures/gateway/rest.cpp:248-313` | The same for a contract list, with the codes of live contracts that are not discarded. |
| `SubscriptionSteps.ClientSymbolsInOrder` | `src/roq/htx_futures/gateway/controller.cpp:206-213` | New symbols are published in the order in which they are named first. |
| `SubscriptionSteps.ContractsActLikeAClient` | `src/roq/htx_futures/gateway/rest.cpp:303-313` | With new symbols, a contract list has the effect of a client that names the usable codes. |
| `SubscriptionSteps.UsableInOrder` | `src/roq/htx_futures/gateway/rest.cpp:254-302` | These are taken in the order of the list. |
| `SubscriptionSteps.SlicesAreRanges` | `src/roq/htx_futures/gateway/controller.cpp:304-324` | Slice number i is the range of symbols from i times the size on, and every stream has symbols to serve. |
| `SubscriptionSteps.ClientMarketStreams` | `src/roq/htx_futures/gateway/controller.cpp:306-314` | Market-data streams go on in their sessions; new ones take the next places in the order of creation and have sent nothing. |
| `SubscriptionSteps.ClientWebStreams` | `src/roq/htx_futures/gateway/controller.cpp:316-324` | The same for web-socket streams, behind the market-data streams. |
| `SubscriptionSteps.ClientCounts` | `src/roq/htx_futures/gateway/controller.cpp:304-324` | There are as many streams of each kind as slices, and each creation is counted. |
| `SubscriptionSteps.ConnectionsAreLocal` | `src/roq/htx_futures/gateway/market_data.cpp:174-195` | A connected stream becomes ready in a new session, a disconnected one loses readiness; no other stream changes. |
| `SubscriptionSteps.ThemesByName` | `src/roq/htx_futures/gateway/market_data.cpp:428-436` | A ready stream asks for exactly these four, or three, themes of every symbol of its slice, the depth theme alone with incremental data. |
| `SubscriptionSteps.RequestIds` | `src/roq/htx_futures/gateway/market_data.cpp:441` | Request number k of a stream has the stream's id times a million plus k + 1, over all its sessions. |
| `Cid.CidTexts` | `src/roq/htx_futures/protocol/json/encoder.cpp:26-28` | The ids as sent: P, C or X, the request id, and the version. |
| `Cid.SplitUndoesPrint` | `src/roq/htx_futures/protocol/json/encoder.cpp:281-311` | Splitting a printed id gives back type, request id and version if and only if the request id has no colon. |
| `Cid.SplitRecognizes` | `src/roq/htx_futures/protocol/json/encoder.cpp:286-295` | Creations and cancellations are recognized, mass cancellations are undefined. |
| `Cid.SplitAtFirstColons` | `src/roq/htx_futures/protocol/json/encoder.cpp:283-308` | Any text is split at its first two colons. |
| `Cid.SplitWithoutColons` | `src/roq/htx_futures/protocol/json/encoder.cpp:283-310` | A text with fewer than two colons yields nothing. |
| `Cid.PrintCidInjective` | `src/roq/htx_futures/protocol/json/encoder.cpp:167-176` | Different operations, request ids or versions have different ids, colons or not. |
| `Cid.PrintedVersion` | `src/roq/htx_futures/protocol/json/encoder.cpp:302` | A printed version parses back exactly below 2^32. |
| `Json.ReadsBackExactly` | `src/roq/htx_futures/protocol/json/encoder.cpp:63-134` | A reference reader gets a written value back if and only if its strings need no escaping and its numbers are numerals (sections 6 and 7 of RFC 8259). |
| `Encoder.CreateOrder` | `src/roq/htx_futures/protocol/json/encoder.cpp:63-100` | The text is the object of the intended fields, optional ones under their guards. |
| `Encoder.CancelOrder` | `src/roq/htx_futures/protocol/json/encoder.cpp:102-122` | As above, by client order id or by external order id. |
| `Encoder.CancelAllOrders` | `src/roq/htx_futures/protocol/json/encoder.cpp:124-134` | As above, for one contract. |
| `Encoder.CreateOrderV5` | `src/roq/htx_futures/protocol/json/encoder.cpp:317-364` | As above, with default margin mode and no time in force for market orders. |
| `Encoder.CreateOrderWs` | `src/roq/htx_futures/protocol/json/encoder.cpp:138-199` | Operation by margin mode, correlation id and the same fields; for other margin modes the process ends and the buffer is untouched. |
| `Encoder.CancelOrderWs` | `src/roq/htx_futures/protocol/json/encoder.cpp:201-246` | As above. |
| `Encoder.CancelAllOrdersWs` | `src/roq/htx_futures/protocol/json/encoder.cpp:248-279` | As above. |
| `Encoder.CreateOrderWsV5` | `src/roq/htx_futures/protocol/json/encoder.cpp:370-425` | As above, one operation for all margin modes. |
| `Encoder.CancelOrderWsV5` | `src/roq/htx_futures/protocol/json/encoder.cpp:427-456` | As above. |
| `Encoder.CancelAllOrdersWsV5` | `src/roq/htx_futures/protocol/json/encoder.cpp:458-474` | As above. |
| `Encoder.CreateOrderInfoQuery` | `src/roq/htx_futures/protocol/json/encoder.cpp:37-58` | The parameters in their order, with one of the two order ids. |
| `Encoder.RequestIsEnvelope` | `src/roq/htx_futures/protocol/json/encoder.cpp:163-197` | Character for character, a web-socket request is an envelope of operation and correlation id around the HTTP body of the same fields. |
| `EncoderTheorems.CreateRoundTrip` | `src/roq/htx_futures/protocol/json/encoder.cpp:63-100` | Reading a create body gives the request back (missing leverage as 1) if and only if its texts are plain and its leverage a numeral. |
| `EncoderTheorems.CreateIsDecoded` | `src/roq/htx_futures/protocol/json/encoder.cpp:86-97` | Each field holds what it is meant to hold, and an optional field is there exactly if it was given. |
| `EncoderTheorems.CreateV5RoundTrip` | `src/roq/htx_futures/protocol/json/encoder.cpp:317-364` | The same for v5. |
| `EncoderTheorems.CreateV5IsDecoded` | `src/roq/htx_futures/protocol/json/encoder.cpp:325-361` | The same for v5. |
| `EncoderTheorems.CancelRoundTrip` | `src/roq/htx_futures/protocol/json/encoder.cpp:102-122` | Reading a cancel body gives the order it was for, if and only if its texts are plain. |
| `EncoderTheorems.CancelAllRoundTrip` | `src/roq/htx_futures/protocol/json/encoder.cpp:124-134` | The same for mass cancellations. |
| `EncoderTheorems.RequestRoundTrip` | `src/roq/htx_futures/protocol/json/encoder.cpp:163-198` | A web-socket request is taken apart into operation, type, request id, version and fields if and only if its texts are plain and the request id has no colon. |
| `EncoderTheorems.TransportsAgree` | `src/roq/htx_futures/protocol/json/encoder.cpp:370-425` | Both transports of a v5 creation carry the same order, and the id in the envelope is the order's. |
| `EncoderTheorems.CreateByName` | `src/roq/htx_futures/protocol/json/encoder.cpp:73-97` | Every field of a v1 creation by its name; a missing leverage is 1. |
| `EncoderTheorems.CreateV5ByName` | `src/roq/htx_futures/protocol/json/encoder.cpp:334-361` | Every field of a v5 creation by its name; a market order has no time in force, and reduce-only is 1 or 0. |
| `EncoderTheorems.CreateIsReceived` | `src/roq/htx_futures/protocol/json/encoder.cpp:145-198` | Over the web-socket a v1 creation is received with the operation of its margin mode, its id, and the order. |
| `EncoderTheorems.CancelIsReceived` | `src/roq/htx_futures/protocol/json/encoder.cpp:209-245` | The same for a cancellation and its version. |
| `EncoderTheorems.CancelAllIsReceived` | `src/roq/htx_futures/protocol/json/encoder.cpp:250-278` | The same for a mass cancellation. |
| `Channel.ExtractsParts` | `src/roq/htx_futures/protocol/json/utils.hpp:39-65` | The searches pick the second and third dot-separated part, or the last there is. |
| `Channel.SymbolComesBack` | `src/roq/htx_futures/protocol/json/utils.hpp:39-49` | The symbol of a subscribed channel comes back if and only if it has no dot. |
| `Channel.TopicComesBack` | `src/roq/htx_futures/protocol/json/utils.hpp:51-65` | The topic is the first part of the theme, or what follows the first dot of the symbol. |
| `Channel.UpdatesReachTheirHandler` | `src/roq/htx_futures/protocol/json/parser.cpp:46-80` | For every dot-free symbol, every theme and either setting, an update reaches the handler for its theme. |
| `Channel.FramesByStatus` | `src/roq/htx_futures/protocol/json/parser.cpp:43-119` | Pings, errors and acknowledgements have their handlers; an acknowledgement of nothing ends the process. |
| `Channel.FramesByTopic` | `src/roq/htx_futures/protocol/json/parser.cpp:46-88` | Without a status each topic name has its own handler, private topics are left alone, and anything else is an error unless unknown messages are allowed. |
| `Channel.AcceptedTopics` | `src/roq/htx_futures/gateway/web_socket.cpp:284-298` | Which handlers of the two kinds of stream do not end the process. |
| `Channel.SubscribedChannelsAreHandled` | `src/roq/htx_futures/gateway/web_socket.cpp:284-298` | An update reaches a handler of its own stream that does not end the process, if and only if the symbol is dot-free or its second part happens to name such a topic. |
| `Channel.KindsAreSeparate` | `src/roq/htx_futures/gateway/market_data.cpp:410-424` | The other kind of stream would have ended the process. |
| `Splitting.PartsExactly` | `src/roq/htx_futures/protocol/json/utils.hpp:39-65` | Joined parts come back exactly if none holds the separator. |
| `SubscribeMessages.WriteSubscribe` | `src/roq/htx_futures/gateway/market_data.cpp:438-475` | The text of a subscription request is the object of channel, data type where there is one, and id. |
| `SubscribeMessages.SubscribeRoundTrip` | `src/roq/htx_futures/gateway/market_data.cpp:442-474` | Reading that text gives back id, theme and symbol if and only if symbol and theme need no escaping and the symbol has no dot. |
| `Dispatch.Dispatch2` | `src/roq/htx_futures/protocol/json/parser_2.cpp:66-152` | The first field that means something decides; at most one handler is called and the result is true exactly if one was. |
| `Dispatch.Dispatch3` | `src/roq/htx_futures/protocol/json/parser_3.cpp:36-85` | As above, for operator and status. |
| `Dispatch.Dispatch5` | `src/roq/htx_futures/protocol/json/parser_5.cpp:41-114` | As above, for operator, correlation id and topic. |
| `Answers.OperatorIsAnswered2` | `src/roq/htx_futures/protocol/json/parser_2.cpp:76-103` | The first meaningful field is an operator: each text has its own handler, an empty one ends the process, another one is unknown. |
| `Answers.TopicIsAnswered2` | `src/roq/htx_futures/protocol/json/parser_2.cpp:104-143` | The first meaningful field is a topic: each name has its own handler. |
| `Answers.OperatorIsAnswered3` | `src/roq/htx_futures/protocol/json/parser_3.cpp:46-72` | As for the other dispatcher; sub and notify are passed over. |
| `Answers.StatusIsAnswered3` | `src/roq/htx_futures/protocol/json/parser_3.cpp:73-76` | The first meaningful field is a status: the response handler. |
| `Answers.OperatorIsAnswered5` | `src/roq/htx_futures/protocol/json/parser_5.cpp:51-78` | The first meaningful field is an operator: each text has its own handler. |
| `Answers.CidIsAnswered5` | `src/roq/htx_futures/protocol/json/parser_5.cpp:79-82` | The first meaningful field is a correlation id: the response handler, whatever else the message holds. |
| `Answers.TopicIsAnswered5` | `src/roq/htx_futures/protocol/json/parser_5.cpp:83-105` | The first meaningful field is a topic: each name has its own handler. |
| `Answers.NothingIsAnswered` | `src/roq/htx_futures/protocol/json/parser_5.cpp:107-113` | Without a meaningful field no dispatcher calls a handler. |
| `Dispatch.OnlyDecisiveFields` | `src/roq/htx_futures/protocol/json/parser_5.cpp:48-108` | Messages with the same decisive fields in the same order have the same result. |
| `Dispatch.OrderIsIrrelevantExactly` | `src/roq/htx_futures/protocol/json/parser_5.cpp:48-108` | All orders of the fields give the same result if and only if no two fields mean different things. |
| `Dispatch.OpAndTopic2` | `src/roq/htx_futures/protocol/json/parser_2.cpp:73-146` | Operator and topic may change places if and only if the operator is notify, or the topic is unknown and so is the operator (or it is empty and unknown events are not allowed). |
| `Dispatch.OpAndTopic5` | `src/roq/htx_futures/protocol/json/parser_5.cpp:48-108` | The same for v5 messages without a correlation id. |
| `Dispatch.TopicIsPart` | `src/roq/htx_futures/protocol/json/parser_2.cpp:37-46` | The topic is the first part, or the last part of a public topic. |
| `Dispatch.FundingRateIsHandled` | `src/roq/htx_futures/protocol/json/parser_2.cpp:37-48` | The funding rate of every symbol, with dots or without, reaches its handler. |
| `Signing.Crypto.AppendSignedText` | `src/roq/htx_futures/tools/crypto.cpp:137-151` | Question mark and signed text, with the date and time of day of the input. |
| `Signing.Crypto.CreateQuery` | `src/roq/htx_futures/tools/crypto.cpp:103-168` | The digest is over method, host, path and the returned text; the returned query is that text and the encoded signature. |
| `Signing.Crypto.CreateWsAuth` | `src/roq/htx_futures/tools/crypto.cpp:48-101` | The login message, with the digest over the text that is not sent. |
| `Signing.Crypto.WriteLogin` | `src/roq/htx_futures/tools/crypto.cpp:80-100` | The login message is the JSON object of its seven fields. |
| `Calendar.MomentRoundTrip` | `src/roq/htx_futures/tools/crypto.cpp:50-55` | Date and time of day recombine to the input second. |
| `Calendar.MomentInSeconds` | `src/roq/htx_futures/tools/crypto.cpp:50-55` | The input in numbers: days of the Gregorian years and months before, 86400 seconds a day, hours, minutes and seconds. |
| `Calendar.MonthTable` | `src/roq/htx_futures/tools/crypto.cpp:51` | The days of a year before each month, with the leap-year rule. |
| `Calendar.RecombineRoundTrip` | `src/roq/htx_futures/tools/crypto.cpp:50-55` | Every valid date and time of day is the decomposition of its second. |
| `Calendar.DateIsUnique` | `src/roq/htx_futures/tools/crypto.cpp:51` | A day has one date only. |
| `Calendar.DaysInClosedForm` | `src/roq/htx_futures/tools/crypto.cpp:51` | The calendar is the Gregorian one: its years add up to the closed form. |
| `Calendar.FourDigitYears` | `src/roq/htx_futures/tools/crypto.cpp:61-63` | The year has at most four digits exactly before second 253402300800. |
| `SigningTheorems.TimestampsAgree` | `src/roq/htx_futures/tools/crypto.cpp:56-98` | The signed timestamp is the message's timestamp percent-encoded, and decodes to it (section 2.1 of RFC 3986). |
| `SigningTheorems.TimestampIsExact` | `src/roq/htx_futures/tools/crypto.cpp:89-98` | A reader of the timestamp recovers exactly the second. |
| `SigningTheorems.TimestampText` | `src/roq/htx_futures/tools/crypto.cpp:89-98` | Year, month, day, hours, minutes and seconds in their order and widths. |
| `SigningTheorems.TimestampWidth` | `src/roq/htx_futures/tools/crypto.cpp:89` | It has its fixed width exactly before the year 10000. |
| `SigningTheorems.SignedTextIsJoined` | `src/roq/htx_futures/tools/crypto.cpp:137-151` | The signed text is the four fixed parameters and those of the query, joined by ampersands. |
| `SigningTheorems.SignedQueryReadsBack` | `src/roq/htx_futures/tools/crypto.cpp:137-168` | A reference reader recovers all parameters and the signature if and only if no value holds an ampersand. |
| `SigningTheorems.OrderQueryReadsBack` | `src/roq/htx_futures/gateway/order_entry_rest_5.cpp:358-364` | The same for the query for one order. |
| `SigningTheorems.OrderQueryByName` | `src/roq/htx_futures/gateway/order_entry_rest_5.cpp:358-364` | By name: the sent query has the contract code, the margin mode, and exactly one of the two order ids. |
| `SigningTheorems.SignerByName` | `src/roq/htx_futures/tools/crypto.cpp:137-166` | By name: it has the key, method and version of the signature, the time, and the signature. |
| `SigningTheorems.PayloadReadsBack` | `src/roq/htx_futures/tools/crypto.cpp:153-160` | The text of the digest is method, host, path and signed text again if and only if none of them holds a line break. |
| `SigningTheorems.LoginLookup` | `src/roq/htx_futures/tools/crypto.cpp:81-99` | The login message by the names of its seven fields. |
| `SigningTheorems.SignedKeysAscend` | `src/roq/htx_futures/protocol/json/encoder.cpp:37-58` | Its keys before the signature ascend strictly by character code. |
| `SigningTheorems.SignedTextIsSent` | `src/roq/htx_futures/tools/crypto.cpp:152-166` | Whatever the values are, the sent query without its last parameter is the signed text. |
| `SigningTheorems.LoginIsRebuilt` | `src/roq/htx_futures/tools/crypto.cpp:56-99` | The signed text of a login can be rebuilt from the fields of its message. |
| `SigningTheorems.LoginReadsBack` | `src/roq/htx_futures/tools/crypto.cpp:81-99` | The login message reads back if and only if key and signature are plain. |

## Left out

- The v1 drop copy and the v1 HTTP order entry: a simpler copy of the same recovery protocol.
- The web-socket order entries: they send the requests of `Encoder` and keep no protocol state of their own.
- Sockets, HTTP, compression, logging, metrics and configuration: input and output.
- HMAC, SHA-256, base64 and URL encoding: library code. The Ed25519 variant is compiled out.
- Decimal and floating-point printing: numbers enter as the texts they are printed to.
- The tables between gateway and exchange enumerators (`map.cpp`): enumerators enter as their texts.
- The generated message decoders: a message is the sequence of its fields with text values. Values of another JSON type, which make the decoders throw, are not modelled.
- JSON escapes: the encoders write none, so texts that need them are outside the round trips, exactly.
- The theme of the order book is the one all configurations use.
- RecoveryObjects.DropCopy5.Download: does not keep the texts of the four subscription requests, only that a reply is awaited.
- RecoveryObjects.DropCopy5.SocketReady: does not hold the login message itself, which is `Signing.Crypto.CreateWsAuth`.
- RecoveryObjects.DropCopy5.Auth: does not record that a refused login closes the connection; the disconnect is an event of its own.
- RecoveryObjects.OrderEntryREST5.SendOpenOrders: does not hold method, path and query of the request; the query is `Signing.Crypto.CreateQuery`.
- SubscriptionObjects.SubscriptionStream.SubscribeTheme: keeps id, theme and symbol of a request; its text is `SubscribeMessages.WriteSubscribe`.
- SubscriptionObjects.Controller.LearnContracts: does not model the reference data published for every live contract.
- Order books, the order store and the rate limiter: libraries that are not part of this model.
- `WebSocket2`: never created.
- The order in which the set of stale keys is walked: the requests of one batch form a multiset.
- Widths of 64-bit counters and clocks: they do not wrap around in the model. The 16-bit stream id does.
- Times before 1970: the decomposition truncates toward zero there.
- RecoverySessions.ReadyPossibleExactly: is about possibility under a cooperative exchange; that timers fire and replies come is not stated.
- Asserts in the source (for example a non-empty path) are preconditions or cannot fail in the model.

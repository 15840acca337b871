# Verified model of mcpshield

mcpshield is a gateway between MCP clients and upstream tool servers. It
authenticates clients, binds them to sessions, decides each tool call by a
policy, forwards what is allowed and records everything in an audit log whose
rows form a hash chain. This project models the parts with state and proves what
they keep over whole runs.

`dafny verify dfyconfig.toml` checks everything.

| files | what they model |
|---|---|
| `Options`, `Strings` | an option type and two facts about strings |
| `Json`, `Digests`, `HashChain` | the canonical JSON text, the digest and the hash chain and `VerifyChain` |
| `ScanOrder`, `SqliteStore` | the `audit_events` table, its `(ts_unix_nano, event_id)` order, and the store's operations |
| `LogIntegrity` | what `VerifyChain` decides about order, loss, change and reseal |
| `WriterModel`, `AuditLogger`, `ChainRuns`, `ArrivalRuns`, `RetentionRuns`, `LogReturns` | the writer as a state machine, the logger that refines it, runs of the two over the store, what the order of arrival decides in them, what retention leaves, and what a nil return of `Log` is worth |
| `ToolCache`, `UpstreamManager`, `WarmupRuns` | the aggregated tool list with its routes, the concurrent cache protocol, and what its callers are told |
| `Sessions`, `SessionOrder`, `SessionLife` | the session table and the list that it refines, what a touch is worth when readings come out of lock order, and how long a session lives over runs of requests |
| `RateLimit`, `Policy`, `Engine`, `EngineSteps`, `CompiledLimits`, `SharedBuckets` | the fixed-window limiter, the policy compiler and evaluator, the engine that composes them, its calls interleaved, what a limit in a rule file means, and limits that share a bucket |
| `Gateway`, `GatewayRuns`, `GatewayAnswers`, `SessionRuns` | the request flow with its ordered effects, runs of requests one by one, what they answer and record, and runs in one session |
| `GatewaySteps`, `StepAnswers` | the same for interleaved requests |
| `AuditedRuns`, `RowFields` | the gateway and the audit writer together, and from the request to its row |
| `Replay`, `ReplayLimits` | the replay check, and replay under rate limits |

Conventions: times are integers (nanoseconds). Table columns are the fields of a
`Payload` plus the two hash columns. A digest is a function of the previous hash
and the payload; where a theorem needs collision freedom it asks for it only on
the inputs that the log at hand has hashed, never on all inputs. `Digests` shows
that SHA-256 over `prevHash ++ canonicalJSON`, if it is hex valued and does not
collide on those inputs, is such a digest. Concurrency is modelled as steps: one
step is one critical section, channel operation or network answer. Failures, the
clock, answers of upstreams and the outcome of database transactions are
parameters of the steps, so theorems hold for all of them.

## Findings

Where the code and its documentation or intent differ, the model follows the
code.

- The log verifies exactly when events arrive at the writer in scan order
  (`LogIntegrity.OrderDecides`; over runs with retention and restarts
  `ArrivalRuns.RunOrderDecides`), and nothing enforces that: a call is stamped
  before it goes upstream and logged after the answer
  (`internal/gateway/gateway.go:442` and `:524`), so two overlapping calls can
  arrive the other way round. `LogReturns.LateArrivalRun` is such a run of the
  writer, which loses nothing and ends with a log that `VerifyChain` rejects. A
  completed reseal makes the log acceptable again, whatever went before
  (`ArrivalRuns.TracedRunDecides`).
- `VerifyChain` scans from timestamp 0, so rows before it are invisible. This is
  the exception in `LogIntegrity.OrderDecides`, `ChangeDecides` and `ResealDecides`.
- `ChainRuns.RetentionDecides`: a retention run that removed rows and did not
  complete its reseal and its reload of the tip leaves log or tip unsound, and
  `ChainRuns.NextBatchDecides` says what that means: `VerifyChain` may still
  accept, but accepts after the next batch if and only if log and tip were sound.
  `TrimToSize` can fail after some chunks are gone, and then `runRetention` does
  not reseal. `ChainRuns.BlindRestartDecides`: a start that cannot read the tip
  begins a second chain.
- A nil return of `Log` is not a stored row. In block and fail_closed mode, once
  the writer has finished, the accepted events are all stored if and only if no
  flush failed (`LogReturns.StoredUnlessFlushFailed`). In best_effort and drop
  mode `Log` also returns nil for an event it drops, and a tool result can be sent
  whose event is never stored (`LogReturns.AcceptedNotStored`,
  `AuditedRuns.SentResultNotStored`).
- With `fail_closed` auditing a result is withheld when its event is refused, but
  the upstream call has been made by then. An upstream call goes unrecorded if and
  only if its one audit attempt is refused (`GatewayRuns.UpstreamCallAttempted`),
  and `Log` refuses exactly in fail_closed mode, when the last flush failed or the
  call gives up, after 100 ms or when its context ends (`LogReturns.RefusedInRun`).
  `AuditedRuns.CallWithoutRow` is such a run.
- The limiter's windows start at a call, not on a grid, so an interval of one
  window length can see up to `2 * max - 1` admitted calls (`RateLimit.IntervalBound`),
  and does for every limit with a window above one tick (`IntervalBoundAttained`).
  `max` itself is the bound if and only if it is 1 or the window is one tick
  (`RateLimit.MaxBoundsExactly`).
- The advertised retry delay is the whole window truncated to milliseconds; it
  is 0 for windows below one millisecond, and waiting exactly that long is enough
  exactly when the elapsed part of the window covers the truncation
  (`Engine.RetryAfterSuffices`).
- A lookup renews a session before its owner is checked (`internal/gateway/gateway.go:586-594`
  and `:612-629`): a request of another client is refused, and gives the session a
  full TTL (`SessionLife.TouchRenews`).
- Bucket keys are joined with colons. Rule names or client ids can share a bucket
  exactly when one followed by a colon begins the other followed by a colon
  (`Engine.RuleNamesMeet`, `Engine.ClientIdsMeet`). A rule file that compiles can
  do so, and then a limit can be exceeded: `SharedBuckets.SharedBucketBreaksBound`.
  Only a rule with a shorter window does that: a bucket shared with windows no
  shorter keeps the bound, whatever the names (`EngineSteps.InterleavedBound`).
- A session lookup reads the clock before it takes the lock
  (`internal/gateway/gateway.go:613-614`), a bind after
  (`:599-602`). With overlapping requests the session table is therefore ordered
  by the reading of the last touch (`Sessions.RefinesByReading`), not by the touch
  itself: a touch goes last if and only if no other session has a later reading
  (`SessionOrder.TouchGoesLast`), and when the next bind finds the table full, the
  session touched last is safe if and only if another was touched by an earlier
  reading (`SessionOrder.LastTouchSurvives`). `Sessions.LateLookupLoses` is a run
  that evicts it.
- The engine likewise reads the clock before a bucket's lock
  (`internal/policy/engine.go:127`). If a bucket gets calls out of the order of their
  readings, a limit of one still holds, and for any larger limit there is no bound
  at all (`RateLimit.AnyOrderBounds`, `RateLimit.LateReadingsExceed`).
- Replay puts recorded calls to the engine with the clock of the replay. A policy
  replays every record of its own unchanged if and only if no limited rule covers a
  call that it allows (`ReplayLimits.LimitedReplayDecides`).
- `README.md:240` of the repository says that the first matching rule wins. Rules
  are not read in order: `Policy.OrderIrrelevant`, `Policy.FirstMatchDoesNotWin`.
  `README.md:73-78` lists rate limiting before policy; `Evaluate` does it after,
  so calls denied by policy consume no token.
- The configuration checks that upstream prefixes are distinct. Names are routed
  correctly for all upstream answers exactly when no prefix followed by a dot
  begins another (`ToolCache.PrefixFreeDecides`, `DistinctPrefixesNotEnough`).

One behaviour that is intended, with its exact reach: a refresh that is in flight
when the tool cache is invalidated restores readiness
(`internal/upstream/manager_test.go:539-594`). Whatever is published after an
invalidation was asked for after it, in every continuation, if and only if no
refresh held an answer or had a request out at that moment
(`UpstreamManager.InvalidationDecides`).

## Model

| member | source | states |
|---|---|---|
| Json.ObjectInjective | internal/audit/hashchain.go:41-63 | the JSON text of an object with a fixed list of members determines every member's value |
| Json.QuoteSplits | internal/audit/hashchain.go:41-63 | a quoted string can be read back from the front of any text |
| Json.DecimalSplits | internal/audit/hashchain.go:41-63 | a decimal number followed by a non-digit can be read back from the front of any text |
| Json.DigitsAreWorth | internal/audit/hashchain.go:41-63 | the digits written for a number are worth that number |
| Digests.CanonicalMembers | internal/audit/hashchain.go:12-63 | the text of a payload that needs no escapes: the seventeen names in source order, each with the value of its own field |
| Digests.CanonicalInjective | internal/audit/hashchain.go:41-63 | two payloads with the same canonical JSON are equal |
| Digests.PreimageInjective | internal/audit/hashchain.go:65-74 | previous hash and payload are determined by their concatenation, since the hash is "" or hex and the JSON starts with a brace |
| Digests.ShaIsADigest | internal/audit/hashchain.go:65-74 | if SHA-256 does not collide on the preimages of these rows, the digest does not collide on the rows |
| Digests.ShaTipFixesHistory | internal/audit/hashchain.go:65-99 | two logs accepted under SHA-256 with the same last hash hold the same rows |
| HashChain.ChainVerified | internal/audit/logger.go:408-442 | the chain that the writer builds from a tip verifies from that tip and holds exactly the batch |
| HashChain.VerifiedUnique | internal/audit/hashchain.go:81-99 | a verified sequence is the only one with its start and its data |
| HashChain.VerifiedConcat | internal/audit/hashchain.go:81-99 | a sequence verifies exactly when its parts do, the second from the tip of the first |
| HashChain.OnlyFirstIsAnchored | internal/audit/hashchain.go:81-99 | in a verified chain only the first row has an empty previous hash |
| HashChain.TipFixesHistory | internal/audit/hashchain.go:65-99 | two verified chains with the same tip are the same chain, of whatever lengths |
| HashChain.DistinctHashes | internal/audit/hashchain.go:81-99 | the hashes of a verified chain are pairwise distinct |
| HashChain.VerifiedSelection | internal/audit/hashchain.go:81-99 | a sequence of rows taken from a verified chain verifies exactly when it is a prefix of the chain |
| HashChain.ChangedRowRejected | internal/audit/hashchain.go:12-35 | a row whose hashed fields changed while its hashes stayed does not link to its predecessor |
| HashChain.VerifyRows | internal/audit/hashchain.go:81-100 | the checking loop accepts exactly the verified sequences |
| ScanOrder.BeforeMeans | internal/audit/sqlite_store.go:54-61 | scan order is by timestamp, and within one by event id, character by character |
| ScanOrder.ScanLists | internal/audit/sqlite_store.go:54-61 | the scan holds exactly the table's rows, in strictly increasing (ts, event_id) order |
| ScanOrder.ListingUnique | internal/audit/sqlite_store.go:54-61 | there is only one such sequence |
| ScanOrder.FromIsSuffix | internal/audit/sqlite_store.go:224-235 | deleting by age leaves a suffix of the scan |
| ScanOrder.WithoutOldestIsSuffix | internal/audit/sqlite_store.go:259-277 | deleting the n oldest rows leaves the scan without its first n, or nothing |
| SqliteStore.Store.InsertBatch | internal/audit/sqlite_store.go:138-165 | all rows go in, or the table is unchanged: on a failed transaction, a taken event id or one that occurs twice |
| SqliteStore.Store.LastHash | internal/audit/sqlite_store.go:168-177 | the hash of the last row in scan order, "" for an empty table |
| SqliteStore.Store.Scan | internal/audit/sqlite_store.go:180-191 | the result is sorted by (ts, event_id) and holds exactly the rows from the given timestamp on, each once |
| SqliteStore.Store.VerifyChain | internal/audit/hashchain.go:81-100 | accepts exactly when the rows from timestamp 0 on, in order, form a verified chain |
| SqliteStore.Store.DeleteBefore | internal/audit/sqlite_store.go:224-235 | removes exactly the rows older than the cutoff and returns how many |
| SqliteStore.Store.TrimToSize | internal/audit/sqlite_store.go:259-277 | ends with size within the limit, an empty table or an error, having removed whole chunks of oldest rows |
| SqliteStore.Store.ResealChain | internal/audit/sqlite_store.go:289-350 | rewrites the two hash columns into the chain over the whole scan and nothing else, or changes nothing |
| SqliteStore.InsertedAfter | internal/audit/sqlite_store.go:138-165 | rows inserted after all others extend the scan at its end |
| SqliteStore.ResealedScan | internal/audit/sqlite_store.go:289-350 | the resealed table scans as the chain over the same payloads in the same order |
| SqliteStore.TrimmedScan | internal/audit/sqlite_store.go:259-277 | after any number of chunks the scan is a suffix of what it was |
| LogIntegrity.OrderDecides | internal/audit/hashchain.go:81-99 | what the writer chained is accepted if and only if arrival order and visible scan order agree |
| LogIntegrity.NonNegativeOrderDecides | internal/audit/sqlite_store.go:54-61 | with timestamps from 0 on: if and only if the events arrived in (ts, event_id) order |
| LogIntegrity.LateArrivalDecides | internal/audit/hashchain.go:81-99 | two events chained against their scan order make a table that is rejected, unless the earlier one lies before timestamp 0 |
| LogReturns.LateArrivalRun | internal/gateway/gateway.go:441-524 | for any two events, channel and batch size there is a finished writer run that loses nothing, in which the earlier event is logged first but enters the channel second, and whose table is rejected unless the earlier event lies before timestamp 0 |
| LogIntegrity.DeletionDecides | internal/audit/hashchain.go:81-99 | after deleting any set of rows a verified log is accepted if and only if no remaining visible row comes after a deleted one |
| LogIntegrity.ChangeDecides | internal/audit/hashchain.go:12-35 | changing one visible row's hashed fields is accepted if and only if it hides the last visible row |
| LogIntegrity.SameTipSameTable | internal/audit/sqlite_store.go:168-177 | two wholly visible verified tables with the same LastHash are the same table |
| LogIntegrity.ResealDecides | internal/audit/sqlite_store.go:289-350 | after a reseal the log is accepted if and only if the rows before timestamp 0 are none or all |
| LogIntegrity.ResealKeepsVerified | internal/audit/sqlite_store.go:289-350 | resealing a verified chain is the identity |
| LogIntegrity.UnchainedAcceptance | internal/audit/logger.go:408-442 | with chaining off the log is accepted if and only if at most one row is visible |
| RetentionRuns.UnchainedRunDecides | internal/audit/logger.go:408-442 | over every run with chaining off no row is linked to another, and the log is accepted if and only if at most one row is visible |
| WriterModel.RunAccounted | internal/audit/logger.go:264-442 | in every mode and run: calls = blocked + committed + dropped + queued + batched + refused, batches preserve enqueue order, and a finished writer holds nothing |
| WriterModel.CommittedInEnqueueOrder | internal/audit/logger.go:358-442 | the committed events are a subsequence of the enqueued ones |
| WriterModel.LatchIsPermanent | internal/audit/logger.go:300-354 | once the fail_closed latch is set with nothing in flight, no run without restart commits another event or clears it |
| WriterModel.LatchedRun | internal/audit/logger.go:432-441 | while the latch holds nothing is committed; the first flush that clears it is a commit of events that were in flight when it was set |
| WriterModel.RunFits | internal/audit/logger.go:358-401 | over every run no batch that is written holds more than its maximum, what is batched holds less, and the channel never more than its size |
| WriterModel.RoomMeansNoDrop | internal/audit/logger.go:288-296 | drop mode: as long as no more calls were made than the channel holds, none gives up |
| AuditLogger.SQLiteAuditLogger.constructor | internal/audit/logger.go:193-252 | the logger starts with the store's tip, or "" if it cannot be read |
| AuditLogger.SQLiteAuditLogger.EnterLog | internal/audit/logger.go:264-317 | a Log call is refused by the latch or goes on to its select, as the state machine's Call |
| AuditLogger.SQLiteAuditLogger.TrySend | internal/audit/logger.go:264-317 | a successful channel send is the state machine's Send |
| AuditLogger.SQLiteAuditLogger.GiveUpSend | internal/audit/logger.go:327-337 | a dropped event is the state machine's GiveUp |
| AuditLogger.SQLiteAuditLogger.FlushBatch | internal/audit/logger.go:408-442 | stamps, inserts, moves the tip only on commit, and drops and latches otherwise |
| AuditLogger.SQLiteAuditLogger.Receive | internal/audit/logger.go:358-401 | one turn of the writer loop on the channel, including the final flush when it is closed |
| AuditLogger.SQLiteAuditLogger.BatchTick | internal/audit/logger.go:358-401 | a tick flushes whatever is batched |
| AuditLogger.SQLiteAuditLogger.RetentionTick | internal/audit/logger.go:358-401 | a retention tick flushes, then runs retention |
| AuditLogger.SQLiteAuditLogger.RunRetention | internal/audit/logger.go:446-485 | deletes by age and size, then reseals and reloads the tip if something is known to be deleted |
| RetentionRuns.RetentionMeans | internal/audit/logger.go:446-485 | one retention run for every outcome of its parts: older rows go and no others unless the database is over its size, then the oldest a hundred at a time; events are kept as they are; and every row is hashed afresh, and the tip read anew, exactly where a deletion is known and the database allows |
| RetentionRuns.TickRetains | internal/audit/logger.go:358-485 | the same for every retention tick of every run, after its flush |
| AuditLogger.SQLiteAuditLogger.CloseChannel | internal/audit/logger.go:321 | closing the channel is the state machine's CloseLog |
| AuditLogger.SQLiteAuditLogger.Close | internal/audit/logger.go:320-324 | closes the channel and returns after the writer's remaining turns, with nothing queued or batched |
| LogReturns.RefusedInRun | internal/audit/logger.go:264-441 | in any run since the last start Log refuses an event exactly in fail_closed mode, if the last flush failed or the call gives up |
| LogReturns.AcceptedIsEnqueued | internal/audit/logger.go:276-318 | in block and fail_closed mode the events with a nil return are the enqueued events, one for one and in order |
| LogReturns.AcceptedOrDiscarded | internal/audit/logger.go:276-318 | in every mode an event with a nil return was enqueued or discarded, never both |
| LogReturns.AcceptedIsStored | internal/audit/logger.go:264-442 | in block and fail_closed mode a finished run without a lost batch stores exactly the events with a nil return |
| LogReturns.StoredUnlessFlushFailed | internal/audit/logger.go:408-442 | in those modes the accepted events are all stored if and only if every flush was committed |
| LogReturns.AcceptedNotStored | internal/audit/logger.go:280-298 | in best_effort mode, and in drop mode with a full channel, a finished run without a lost batch in which an accepted event is not stored |
| LogReturns.RefusedByLatch | internal/audit/logger.go:300-304 | in fail_closed mode, a run in which a failed write makes Log refuse the next event |
| ChainRuns.PlainRunDecides | internal/audit/logger.go:408-442 | over every run of callers and flushes, failed or not, events before timestamp 0 included, the stored log is accepted if and only if the committed events read back in commit order |
| ArrivalRuns.RunOrderDecides | internal/audit/logger.go:248-485 | over every run with failed batches, retention that completes what it begins and restarts that read the tip, the stored log is accepted if and only if its events, since the last reseal, were committed in scan order |
| ArrivalRuns.TracedRunDecides | internal/audit/logger.go:248-485 | the same from any log and for any outcomes of retention and restarts, as long as no rows were hashed from a wrong tip or deleted without a reseal since the last completed reseal |
| ArrivalRuns.CrookedRejected | internal/audit/hashchain.go:81-99 | events stored out of order keep the log rejected, whatever is committed after them and wherever restarts fall |
| ChainRuns.FinishedRun | internal/audit/logger.go:358-442 | a finished run that lost no batch stores the chain of exactly the enqueued events |
| ChainRuns.BatchingLeavesNoTrace | internal/audit/logger.go:358-442 | the stored table does not depend on how a stream was cut into batches |
| ChainRuns.PrunedScan | internal/audit/logger.go:446-485 | what retention leaves is a suffix of the scan, whatever fails |
| ChainRuns.RetentionDecides | internal/audit/logger.go:446-485 | a retention run keeps log and tip sound if and only if it removed nothing or completed reseal and reload |
| ChainRuns.OrderlyRunStaysHealthy | internal/audit/logger.go:248-485 | over every run of flushes, retention and restarts that keeps event order, completes its retention and reads the tip on restart, the log is accepted and the writer's tip is the store's |
| ChainRuns.NextBatchDecides | internal/audit/logger.go:408-442 | after the next in-order batch the log is accepted if and only if log and tip were sound before it |
| ChainRuns.BlindRestartDecides | internal/audit/logger.go:193-252 | a restart that cannot read the tip is sound if and only if the log is empty |
| ToolCache.BuildCache | internal/upstream/manager.go:304-338 | succeeds if and only if every upstream answers, with the cache of all answers in order; else names the first that failed |
| ToolCache.CacheLists | internal/upstream/manager.go:304-334 | a cache lists every tool of every answer, in order, under its prefixed name, with its description, and its schema or that of an empty object |
| ToolCache.ListedNamesAreRoutes | internal/upstream/manager.go:316-332 | the listed names are exactly the names with a route |
| ToolCache.ClashDecides | internal/upstream/manager.go:239-260 | for given answers, every tool is reached under its listed name if and only if no two offers share a name with different routes |
| ToolCache.PrefixFreeDecides | pkg/config/config.go:289-293 | routing is faithful for all answers if and only if no prefix with its dot begins another |
| ToolCache.DistinctPrefixesNotEnough | pkg/config/config.go:280-293 | distinct nonempty prefixes with distinct ids need not be prefix-free |
| ToolCache.RouteCall | internal/upstream/manager.go:239-260 | a call is sent where its name's route points, under the original name; not ready and unknown tool are told apart |
| ToolCache.ListedToolIsReached | internal/upstream/manager.go:239-260 | with prefix-free entries, the name that an upstream's tool is listed under reaches that upstream under the tool's own name |
| UpstreamManager.RealManager.BeginWarmup | internal/upstream/manager.go:186-213 | ready, wait on the current channel, or become the leader with a new one |
| UpstreamManager.RealManager.EndWait | internal/upstream/manager.go:200-209 | a woken waiter reports readiness, its own cancellation or not ready, in that order |
| UpstreamManager.RealManager.GetCache | internal/upstream/manager.go:269-300 | the cached value if unexpired, the stale one with a swap to follow, or not ready |
| UpstreamManager.RealManager.CompareAndSwap | internal/upstream/manager.go:284 | wins exactly when the flag was clear, and leaves it set |
| UpstreamManager.RealManager.DoRefresh | internal/upstream/manager.go:304-344 | publishes the complete cache of all answers, or leaves everything as it was |
| UpstreamManager.RefreshAlone | internal/upstream/manager.go:304-344 | the steps of one refresh without another thread in between, one request and one answer per upstream, amount to DoRefresh; how its caller ends is in WarmupAlone and LeaderOutcome |
| WarmupRuns.WarmupAlone | internal/upstream/manager.go:186-223 | a warmup alone ends ready with the cache of all answers if every upstream answers, and else with the error and no cache, nobody loading and the channel closed |
| WarmupRuns.LeaderOutcome | internal/upstream/manager.go:211-223 | in every interleaving a leader that came back was told ready if and only if it published, and given the error if and only if one of its upstreams failed |
| WarmupRuns.ReadyMeansCache | internal/upstream/manager.go:186-223 | in every interleaving a call is told ready only if it published a cache or found one at the step that told it |
| WarmupRuns.LooksTell | internal/upstream/manager.go:186-209 | a look at the cache tells ready if and only if there is one; a waiter is else told of its cancellation, else not ready |
| UpstreamManager.RealManager.ClearLoading | internal/upstream/manager.go:217-219 | a leader that is done clears loading and nothing else |
| UpstreamManager.RealManager.ClearFlag | internal/upstream/manager.go:286 | a background refresh that is done clears the flag and nothing else |
| UpstreamManager.RealManager.InvalidateCache | internal/upstream/manager.go:180-184 | clears the cache and nothing else |
| UpstreamManager.SingleFlight | internal/upstream/manager.go:186-300 | in every interleaving loading is set exactly when one leader is in its load section, at most one background refresh exists, exactly while the flag is set, and at most two refreshes overlap |
| UpstreamManager.WaiterHasOneOwner | internal/upstream/manager.go:192-220 | a waiter's channel is closed, or owned by exactly one leader that has yet to close it |
| UpstreamManager.WaiterIsFreed | internal/upstream/manager.go:215-222 | the owner's own steps, two per upstream and three more at most, close the channel whatever the upstreams answer |
| UpstreamManager.CacheIsLastWrite | internal/upstream/manager.go:304-344 | over every run the cache is what the last publication or invalidation left; failed refreshes change nothing |
| UpstreamManager.CachesAreComplete | internal/upstream/manager.go:269-344 | every cache ever stored or handed to a call is the complete result of one successful refresh by one thread |
| WarmupRuns.PublishedTools | internal/upstream/manager.go:304-344 | so does every cache published in any run |
| UpstreamManager.FreshIsRecent | internal/upstream/manager.go:272-277 | a cache returned on the fast path was published whole, less than one TTL ago |
| WarmupRuns.GetDecides | internal/upstream/manager.go:269-300 | over every run a call for the cache gets not ready if and only if nothing was published since the last invalidation, and else the last publication: at once if it is less than a TTL old, with a refresh behind it if not |
| UpstreamManager.StaleIsRefreshed | internal/upstream/manager.go:279-296 | a call that takes a stale cache leaves a background refresh running |
| UpstreamManager.ReadyUntilInvalidated | internal/upstream/manager.go:225-229 | once ready, only an invalidation ends readiness |
| UpstreamManager.InvalidationDecides | internal/upstream/manager.go:180-184 | from every reachable state: all requests of every later publication are made after the invalidation, in every continuation, if and only if no refresh holds an answer or has a request out when it is taken |
| UpstreamManager.InvalidationOvertaken | internal/upstream/manager.go:180-184 | for all answers there is a run in which a refresh begun earlier publishes them after the invalidation |
| RateLimit.FixedWindowLimiter.Allow | internal/policy/ratelimit.go:34-51 | admits by the key's own bucket, charges it, and touches no other key |
| RateLimit.HistoryIsWindows | internal/policy/ratelimit.go:34-51 | every history is a list of windows at least one length apart with at most max admissions each |
| RateLimit.IntervalBound | internal/policy/ratelimit.go:34-51 | any half-open interval of one window length holds at most 2 * max - 1 admissions |
| RateLimit.IntervalBoundAttained | internal/policy/ratelimit.go:34-51 | for every limit and every window above one tick some run attains that |
| RateLimit.LateReadingsExceed | internal/policy/ratelimit.go:34-51 | for every limit above one, a history with readings out of order that exceeds the bound |
| RateLimit.AnyOrderBounds | internal/policy/ratelimit.go:34-51 | which numbers bound the admissions of every interval of one window length when readings come in any order: from one on for a limit of one, and none for any other limit |
| RateLimit.OrderMatters | internal/policy/ratelimit.go:34-51 | so 2 * max - 1 is a bound in any order of readings if and only if max is 1 |
| RateLimit.MaxBoundsExactly | internal/policy/ratelimit.go:34-51 | max bounds every interval of one window length in every history if and only if max is 1 or the window is one tick |
| RateLimit.TotalBound | internal/policy/ratelimit.go:34-51 | a run admits at most max calls for each window length begun between its first and last call |
| Policy.Compile | internal/policy/loader.go:93-194 | accepts exactly the files without a problem, reports the first problem and its rule, and yields the rules by action in file order |
| Policy.CompileLimit | internal/policy/loader.go:145-168 | accepts exactly positive limits with a positive window and a known scope, on allow rules |
| Policy.CompilesExactly | internal/policy/loader.go:93-168 | which files compile, condition by condition |
| CompiledLimits.CompiledRulesMean | internal/policy/loader.go:107-187 | the compiled allow rules are those of the file, each with its name, tools, arguments, reason and limit: the same max, the parsed window, per client if and only if the file says so |
| CompiledLimits.SameBucketExactly | internal/policy/engine.go:138-141 | calls of one tool by different clients charge the same bucket of a rule if and only if the file does not say per client |
| Policy.CompilePreservesMeaning | internal/policy/loader.go:93-249 | for every file and call, evaluating the compiled policy gives the decision, rule and reason read directly off the raw rules; the surface is the union of the allow rules' tools |
| Policy.AllowedExactly | internal/policy/loader.go:200-249 | allow if and only if an allow rule covers the tool, covering deny rules have args that all pass, and covering allow rules' args all pass |
| Policy.OrderIrrelevant | internal/policy/loader.go:107-187 | permuting the rules changes no action |
| Policy.OneMoreRule | internal/policy/loader.go:200-235 | what one more rule anywhere does to any call, exactly |
| Policy.RulesNarrow | internal/policy/loader.go:200-235 | a deny rule never turns a deny into an allow, and an allow rule does so only for tools that none covered before |
| Policy.FirstMatchDoesNotWin | internal/policy/loader.go:200-235 | a file of two rules whose first match allows a call that is denied |
| Engine.KeyInjective | internal/policy/engine.go:138-141 | with separable names and ids a key determines rule, tool, scope and client |
| Engine.NoColonsSeparable | internal/policy/engine.go:138-141 | names without colons are separable |
| Engine.RuleNamesMeet | internal/policy/engine.go:138-141 | two rule names can share a bucket, on some nonempty tools, if and only if they are not separable |
| Engine.ClientIdsMeet | internal/policy/engine.go:138-141 | so can two client ids, on some nonempty rule names and tools |
| SharedBuckets.SharedBucketBreaksBound | internal/policy/engine.go:130-151 | a file that compiles, and a run that meets every condition of EngineBound but separable names, in which more than 2 * max - 1 calls are allowed |
| Engine.SameCallKeys | internal/policy/engine.go:130-151 | within one call, differently named rules never share a bucket |
| Engine.ChargeRefuses | internal/policy/engine.go:130-151 | the refusing rule is the first limiting rule whose own bucket, before the call, had no token |
| Engine.ChargeCharges | internal/policy/engine.go:130-151 | a limiting rule's bucket is charged once if no earlier rule refused, and otherwise not at all |
| Engine.ChargeLeaves | internal/policy/engine.go:130-151 | no other key is touched |
| Engine.YAMLPolicyEngine.Evaluate | internal/policy/engine.go:115-154 | the decision and the new buckets, no policy denies, and a call denied without rate limiting consumes no token |
| Engine.YAMLPolicyEngine.Swap | internal/policy/engine.go:86-91 | replaces the policy and ignores nil |
| Engine.AllowedMeans | internal/policy/engine.go:115-154 | allow if and only if the policy allows and every limiting rule had a token |
| Engine.DecisionMeans | internal/policy/engine.go:115-154 | the policy's decision, unless it allows and some limiting rule has no token: then the first such rule denies in its own name, with the full milliseconds of its window to wait |
| Engine.BucketIsOwnHistory | internal/policy/engine.go:130-151 | over every run a rule's bucket is what its own calls made of it |
| Engine.EngineBound | internal/policy/engine.go:115-154 | any interval of a limit's window length sees at most 2 * max - 1 allowed calls in its scope, whatever else is called |
| CompiledLimits.FileLimitBound | internal/policy/engine.go:115-154 | for a rule of a file that compiles: in any interval of its window's length at most 2 * max - 1 of the calls that it counts are allowed, all read off the file |
| EngineSteps.InterleavedBound | internal/policy/engine.go:115-154 | with calls evaluated at the same time, each Allow atomic and a bucket's readings in order: at most 2 * max - 1 allowed calls in a limit's scope in any interval of its window's length, if no rule with a shorter window shares the scope's bucket |
| EngineSteps.WhoSpares | internal/policy/engine.go:138-141 | separable names, or windows no shorter than the scope's whatever the names, are enough for that |
| EngineSteps.BucketIsItsTurns | internal/policy/engine.go:130-151 | over every interleaving a bucket is what the Allow calls on its key made of it, one after another |
| EngineSteps.AloneIsStep | internal/policy/engine.go:115-154 | the steps of one call without another in between amount to Evaluate |
| Engine.CompiledSuitsEngine | internal/policy/loader.go:107-168 | compiled rules have distinct names and positive limits |
| Engine.RetryAfterSuffices | internal/policy/engine.go:142-149 | when waiting exactly the advertised time is enough |
| Sessions.SessionCache.Bind | internal/gateway/gateway.go:598-610 | the expired go, then the oldest until one more fits, then the session is in with a full TTL |
| Sessions.SessionCache.Lookup | internal/gateway/gateway.go:612-629 | unknown and expired are not found, the expired is removed, and a found session is renewed |
| Sessions.SessionCache.EvictExpired | internal/gateway/gateway.go:631-639 | keeps exactly the unexpired |
| Sessions.SessionCache.EvictOldest | internal/gateway/gateway.go:641-660 | removes n sessions, or all, none of which expires later than any that stays |
| Sessions.SessionCache.SetSessionConfig | internal/gateway/gateway.go:121-128 | positive settings replace, others are ignored, and no session goes |
| Sessions.BindMeans | internal/gateway/gateway.go:598-660 | after a bind: the session is present, the size within the cap even if that was lowered, survivors unchanged, victims no younger than survivors, and none taken without need |
| Sessions.RefinesByReading | internal/gateway/gateway.go:598-660 | every run with a fixed TTL, whatever the clock readings and the order of the lock, is a run of the list with expiry ordered by the reading of the last touch, with the same replies and changing caps |
| Sessions.RefinesLru | internal/gateway/gateway.go:598-660 | where calls get the lock in the order of their readings that list is the least-recently-used list, and touch order is expiry order |
| Sessions.LateLookupLoses | internal/gateway/gateway.go:612-614 | a run in which a lookup gets the lock after a bind with a later reading, and its session, touched last, is evicted first |
| SessionOrder.TouchGoesLast | internal/gateway/gateway.go:612-629 | a touch puts its session last, as the least-recently-used list has it, if and only if no other session that stays has a later reading; otherwise the old last session stays last |
| SessionOrder.LastTouchSurvives | internal/gateway/gateway.go:598-660 | after a lookup, a bind that finds the table full spares its session, however ties are broken, if and only if another live session was touched by an earlier reading |
| SessionOrder.SurvivesExactly | internal/gateway/gateway.go:598-660 | a live session survives every outcome of a bind if and only if fewer than cap - 1 others expire no earlier, and some outcome if and only if fewer than cap - 1 expire later |
| SessionLife.ExpiryIsTouch | internal/gateway/gateway.go:598-629 | over every run a session's expiry is one TTL after a request that opened it or named it |
| SessionLife.TouchRenews | internal/gateway/gateway.go:598-629 | every accepted initialize, and every request that names a live session, even another client's, gives it a full TTL and no other client |
| Sessions.NoTiesNoChoice | internal/gateway/gateway.go:641-660 | without simultaneous touches the list leaves no choice |
| Sessions.SurvivesBind | internal/gateway/gateway.go:598-610 | a live session survives a bind of the table if fewer than cap - 1 others expire no earlier, and only if fewer than cap - 1 expire later |
| Gateway.GatewayServer.Serve | internal/gateway/gateway.go:265-340 | a decoded request has exactly the effects, in order, and the new state of the request flow |
| Gateway.GatewayServer.HandleInitialize | internal/gateway/gateway.go:343-371 | the session is bound and told only after its event is accepted by Log |
| Gateway.GatewayServer.HandleToolsList | internal/gateway/gateway.go:373-421 | upstream list, filter, audit, answer |
| Gateway.GatewayServer.HandleToolsCall | internal/gateway/gateway.go:423-533 | parameters, decision, upstream call, audit, answer |
| Gateway.GatewayServer.ResolveSession | internal/gateway/gateway.go:581-596 | missing and unknown sessions and those of another client are rejected with their own codes |
| GatewayRuns.SessionsWereOpened | internal/gateway/gateway.go:343-371 | every session in the table was opened by an initialize of its client whose event Log accepted |
| GatewayRuns.UpstreamCallJustified | internal/gateway/gateway.go:324-371 | an upstream call is made only for an authenticated client with an unexpired session opened earlier by an initialize of that client whose event Log accepted, and an allowed call |
| GatewayRuns.UpstreamCallFollowsRules | internal/gateway/gateway.go:438-499 | and with a compiled file in force, only for calls that the rules, read directly, allow |
| GatewayRuns.NoUnauditedResult | internal/gateway/gateway.go:521-532 | a tool result is sent only after an event with that payload was accepted by Log |
| GatewayRuns.UpstreamCallAttempted | internal/gateway/gateway.go:499-532 | an upstream call is followed by exactly one audit attempt, for that call, and goes unrecorded if and only if that attempt is refused |
| GatewayRuns.OpenAndCallRun | internal/gateway/gateway.go:499-532 | for every policy that allows the call both outcomes are reached |
| AuditedRuns.AcceptedHaveRows | internal/gateway/gateway.go:524-527 | block and fail_closed: after a finished writer run without a lost batch every accepted audit attempt has a row of its own, and there are no other rows |
| AuditedRuns.SentResultIsStored | internal/gateway/gateway.go:521-532 | and so every tool result that was sent is in the table, with its payload, in the row of its own request's attempt |
| AuditedRuns.InterleavedResultIsStored | internal/gateway/gateway.go:521-532 | the same for every interleaving of requests |
| RowFields.RequestIsStored | internal/gateway/gateway.go:441-527 | block and fail_closed: every accepted attempt has a row of its own that names its request's client, verb and session, and for a named call its tool, arguments, decision, rule and reason |
| RowFields.InterleavedIsStored | internal/gateway/gateway.go:441-527 | the same for every interleaving |
| AuditedRuns.SentResultNotStored | internal/audit/logger.go:280-298 | best_effort and drop, for every channel size: a run of gateway and writer in which a result is sent whose event has no row, although no batch was lost |
| AuditedRuns.CallWithoutRow | internal/audit/logger.go:300-304 | fail_closed: a run in which a call goes upstream and Log refuses its event because the latch is set |
| GatewaySteps.UpstreamCallJustified | internal/gateway/gateway.go:265-499 | the same as GatewayRuns.UpstreamCallJustified for every interleaving of requests, with the order of the steps that led to the call |
| GatewaySteps.ResultWasAccepted | internal/gateway/gateway.go:499-532 | in every interleaving a tool's result is sent only after its request's upstream answered with that payload and then its event, payload included, was accepted by Log |
| GatewaySteps.OneAttempt | internal/gateway/gateway.go:265-533 | in every interleaving a request makes one audit attempt at most |
| GatewaySteps.NamedCallAttempts | internal/gateway/gateway.go:423-533 | in every interleaving an answered tools/call that names a tool made exactly one |
| StepAnswers.RecordTells | internal/gateway/gateway.go:423-533 | in every interleaving every audit event names its own request, and records the decision on this call, the code with which its session was refused, or a request without tool |
| StepAnswers.ListReplied | internal/gateway/gateway.go:404-421 | in every interleaving a list that is sent is the upstream's list for the same request, filtered by the policy, and the accepted event holds the same list |
| StepAnswers.AloneIsServed | internal/gateway/gateway.go:265-533 | the steps of one request without another in between amount to the request flow: same effects, same order, same session table |
| GatewayRuns.OneAnswerOneRecord | internal/gateway/gateway.go:265-340 | every request is answered once, last, and makes one audit attempt, or none if it is of the listed kinds |
| GatewayRuns.NamedCallIsRecordedOnce | internal/gateway/gateway.go:423-533 | a tools/call that names a tool makes exactly one audit attempt, whatever becomes of it |
| GatewayRuns.RunIsEngineRun | internal/gateway/gateway.go:438-499 | the upstream is called exactly when the engine allows a call, over every run |
| GatewayRuns.UpstreamRateBound | internal/gateway/gateway.go:438-499 | over every run under one policy, upstream calls in a limit's scope number at most 2 * max - 1 in any interval of its window's length |
| GatewayAnswers.ListSent | internal/gateway/gateway.go:404-421 | over every run a list of tools that is sent holds exactly the tools in the surface, as often and in the order in which the upstream listed them, and the accepted event of the same request holds the same list |
| GatewayAnswers.EventsTell | internal/gateway/gateway.go:343-533 | over every run every audit event names its request's client, verb and session; a named call in its session is recorded with its tool, arguments, outcome and the engine's decision, rule and reason; any other request with what its client is told |
| GatewayAnswers.AnswersTell | internal/gateway/gateway.go:139-155 | over every run the one answer to every request, with its status and code |
| Replay.ReplayPolicyCheck | internal/audit/replay.go:34-65 | prints one line per recorded tools/call, in order, with the engine's present decision |
| Replay.ReplayTells | internal/audit/replay.go:34-65 | against any policy: one line for each recorded tools/call, in order, with its tool, the recorded decision, and the decision, rule and reason that the engine gives now; CHANGED if the two decisions differ |
| Replay.ChangedExactly | internal/audit/replay.go:34-65 | where no limit touches a recorded call, CHANGED is printed if and only if some recorded call is now decided differently |
| Replay.GatewayRecords | internal/gateway/gateway.go:438-453 | every audit event of every run, under any policies, is a call decided as the policy in force decides it or refused where a limit may refuse, a rejected session, or not a tools/call |
| Replay.ReplayAgrees | internal/audit/replay.go:34-65 | replay against the policy of the record, no limit of which covers a call that it allows, prints no CHANGED if and only if no session was rejected on a tools/call or the policy denies a nameless call |
| Replay.ReplayOfRun | internal/audit/replay.go:34-65 | the same for the events of any gateway run under that policy |
| Replay.ReplayOfAnyRun | internal/audit/replay.go:34-65 | for the events of any gateway run, with limits and swaps: replay against a policy no limit of which covers a call that it allows prints no CHANGED if and only if it decides every recorded call as it was decided and denies a nameless call where a session was rejected |
| Replay.ReplayFindsDifferences | internal/audit/replay.go:34-65 | against another policy, CHANGED is printed if and only if the two decide some recorded call differently |
| ReplayLimits.LimitedReplayDecides | internal/audit/replay.go:34-65 | a policy with distinct rule names and positive limits replays every record of its own, rejected sessions aside, without CHANGED under every clock if and only if no limited rule covers a call that it allows |
| ReplayLimits.WorkingLimitChanges | internal/audit/replay.go:34-65 | for every call that the policy allows and limits, a run in which it is allowed each time, and whose record replays with a CHANGED |

## Left out

- GatewayRuns.UpstreamCallJustified: requests are served one after another. `GatewaySteps` states it for every interleaving; there a decision that allows is one that the policy allows, and the token counts of overlapping evaluations are in `EngineSteps`.
- Engine.EngineBound: one call is evaluated after another, and names are separable. `EngineSteps.InterleavedBound` has overlapping calls and shared buckets.
- EngineSteps.InterleavedBound: says nothing about a bucket shared with a shorter window, beyond the run of `SharedBucketBreaksBound`.
- RateLimit.IntervalBound: calls reach the bucket in the order of their clock readings; by `OrderMatters` that is needed for every limit above one, and only for those.
- RateLimit.FixedWindowLimiter.Allow: buckets are values in a map; the per-bucket mutex and the identity of bucket pointers are not modelled.
- UpstreamManager.RealManager.DoRefresh: takes all answers at once; requests and answers one by one, with other threads in between, are in the step relation, and `RefreshAlone` ties the two.
- Sessions.SessionCache.EvictOldest: session ids are not empty, as generated UUIDs are not; with an empty id as the oldest the source would stop early.
- Sessions.RefinesByReading: the TTL is fixed during a run. `BindMeans` and `SurvivesBind` hold for any TTL.
- GatewayRuns.UpstreamRateBound: one policy throughout; a swap keeps the buckets of rules with the same name, under the new limits.
- Replay.ReplayOfRun: the run is under one policy, and replay uses it. `ReplayOfAnyRun` has no condition on the run; what a replay against a limited policy of another run prints is not characterised.
- AuditLogger.SQLiteAuditLogger.Close: the closing of the store is not modelled, nor are ticks of the writer between its last receives.
- SQL text, PRAGMAs, WAL, drivers, file sizes and vacuuming: a transaction is one step that succeeds or changes nothing, and the database size is any value.
- SHA-256 itself, JSON text of invalid UTF-8, and the JSON of arguments, responses and errors, which are strings here.
- The conversion of an event into a row (`eventToStored`), except for the columns in `AuditedRuns.Records` and the arguments in `Replay`; request ids, upstream ids, durations and messages.
- HTTP, JSON tokenising, body limits, headers other than the session id, and `internal/transport`.
- Regular expressions, argument validators and duration strings: parameters of the policy model. YAML decoding.
- Authentication and TLS: a request comes with its client, or none.
- Metrics, logging, the command line, export, the read-only replay timeline, the stdout and noop loggers, the stub manager and the deny-all engine.
- Configuration parsing beyond the prefix check.
- Timers, contexts that end, and the 100 ms wait of the fail_closed mode: any outcome is possible at any time.
- A failing random source, for which `Log` returns an error in every mode (`internal/audit/logger.go:268-274`).
- Calls of Log after Close, panics, and 64-bit overflow of times and counters.

# armiarma persister and peer metrics, modelled in Dafny

This project models two parts of the armiarma crawler.

**The batched database persister** (`pkg/db/postgresql/server.go`).
Producers send records (host infos, peer infos, connection attempts,
connection events, IP infos) on a buffered channel of capacity 256. A single
persister goroutine receives them and runs a mapping switch that turns each
record into one or more SQL statements queued on a pgx batch. The batch is
committed in one transaction when it reaches 256 statements, or when the
one-second ticker fires. The commit attempt pulls batch results until the
first error and commits only when that error is the driver's `"no result"`
sentinel. A context cancellation or a `Close` sets a shutdown flag. The loop
leaves only when the flag is set and the channel is empty. `Close` signals,
waits for the persister, closes the pool, then closes the channel.

- `records.dfy` (module `Records`): the record and statement types, the
  mapping switch (`QueueOperations`) and what it queues for each record
  (`IsExpansion`, `FanOut`).
- `executor.dfy` (module `Executor`): `persistBatchFn` as `PersistBatch`,
  specified by `FlushResult`. The transaction and its results are replaced by
  a `StoreResponse`, the answers the store gives.
- `persister.dfy` (module `Persister`): the client as the class `DBClient`.
  The goroutine's loop becomes `Step`, one loop iteration whose inputs are the
  events it waits on. The class invariant `Valid` keeps ghost history:
  - every record sent and received;
  - the statements each received record expanded into;
  - every commit attempt;
  - the lifecycle events.

  It states that the channel is FIFO, that every statement of every received
  record is in exactly one commit attempt or in the open batch, in order, and
  that the open batch stays below 256 at the top of every iteration.

**The per-peer metrics record** (`src/metrics/peer.go`), in `peer.dfy`
(module `Metrics`) as the class `Peer`. It covers:

- the identity fields merged from host-info reports;
- connection and disconnection times;
- the attempt counter;
- per-topic message counters;
- the aggregate queries: connected time, total message count and per-topic
  count.

`go_ints.dfy` (module `GoInts`) writes out Go's `uint64` wrap-around, the
`int64` wrap-around of `+=` and the saturation of `time.Time.Sub`. `options.dfy`
holds an `Option` type.

Times are integers (nanoseconds). The helpers from the `utils` package are
not part of this model: client-type parsing, multiaddress parsing,
geolocation, error filtering and topic-name expansion. They are function
parameters. The driver calls (`Connect`, `Ping`, `Begin`, `Query`, `Commit`,
table creation) are not part of this model either: their answers are
parameters.

`persistingLoop` leaves as soon as the flag is set and the channel is empty,
without flushing the pending batch (server.go:203-205). `Step` states that
the exit does not flush. `Drain`, `ShutDown` and `Close` state that once the shutdown
signal is taken with records still queued, every later commit attempt is
size-triggered, so statements still in the batch at the exit are never
committed.

## Model

| member | source | states |
|---|---|---|
| Records.AttrOps | pkg/db/postgresql/server.go:244-260 | a recognized attribute (status, metadata, ENR) yields exactly one statement, an unrecognized one none |
| Records.AttributeOperations | pkg/db/postgresql/server.go:241-261 | the attribute loop queues, in some order, exactly the bag of statements of the recognized attributes (`AttrBag`), whatever order the map is visited in |
| Records.QueueHostInfo | pkg/db/postgresql/server.go:223-261 | the host-info case keeps the batch as a prefix and appends the host upsert, then the peer update when identified, then the attribute statements |
| Records.QueueOperations | pkg/db/postgresql/server.go:222-295 | the mapping switch keeps the batch as a prefix and appends an expansion of the record: peer info, attempt and IP info one statement each; a connection event the insert then the last-activity update with `DiscTime`; an unrecognized record nothing |
| Records.AttrBagRemove | pkg/db/postgresql/server.go:241 | the attribute bag can be split at any key, so it does not depend on the visiting order |
| Records.AttrBagSize | pkg/db/postgresql/server.go:241-261 | the number of attribute statements equals the number of recognized attributes |
| Records.AttrBagMembers | pkg/db/postgresql/server.go:241-261 | a statement is among the attribute statements if and only if some attribute under a key yields it |
| Records.ExpansionSize | pkg/db/postgresql/server.go:222-295 | every expansion of a record has exactly `FanOut` statements: 1 + 1 if identified + recognized attributes for a host info, 1, 1, 2, 1, 0 for the others |
| Records.HostInfoExpansion | pkg/db/postgresql/server.go:231-261 | in a host-info expansion the host upsert comes first, the peer update second when identified, and every later statement comes from a recognized attribute |
| Records.AttrStatementOrigin | pkg/db/postgresql/server.go:244-257 | each attribute statement is the statement of one recognized attribute of the host |
| Records.ExpansionUnique | pkg/db/postgresql/server.go:222-295 | two expansions of one record hold the same statements; they are equal except for the attribute order of a host info, and agree on its head |
| Records.ConcatAppend | pkg/db/postgresql/server.go:232 | queuing lists of statements one after another concatenates them in order |
| Records.ConcatSize | pkg/db/postgresql/server.go:222-295 | the statements queued for a sequence of received records number the sum of their fan-outs |
| Records.ExpandedAppend | pkg/db/postgresql/server.go:220-295 | receiving and expanding one more record extends the record-to-statements correspondence |
| Executor.FirstFailure | pkg/db/postgresql/server.go:179-186 | the index of the first `Query()` call that reports an error; all calls before it returned rows |
| Executor.PersistBatch | pkg/db/postgresql/server.go:157-194 | the executor's outcome is `FlushResult`: an empty batch is skipped without a transaction, a `Begin` error is reported, results are pulled until the first error, and only the `"no result"` sentinel leads to the commit, with `cnt-1` statements counted |
| Executor.FirstFailureIsFirst | pkg/db/postgresql/server.go:179-186 | a failing call preceded only by successful calls is the first failure |
| Executor.CommitIffSentinel | pkg/db/postgresql/server.go:176-193 | the commit is reached if and only if the first error is the `"no result"` sentinel; then the count is the number of result sets before the sentinel |
| Executor.EmptyBatchSkipped | pkg/db/postgresql/server.go:161-165 | an empty batch never touches the store: the outcome is `Skipped` whatever the store would answer |
| Executor.HealthyStoreCommitsAll | pkg/db/postgresql/server.go:176-193 | a store that returns rows for every statement and then the sentinel commits the whole batch, counting every statement |
| Executor.ErrorBeforeSentinelAborts | pkg/db/postgresql/server.go:179-190 | a real error on call k (the (k+1)-th `Query()` call) before the sentinel ends the attempt after `cnt` = k+1 calls, without commit |
| Persister.SentAccounting | pkg/db/postgresql/server.go:334-336 | a send appends the record to the channel and to the sent history, keeping the FIFO accounting |
| Persister.ReceivedAccounting | pkg/db/postgresql/server.go:220-295 | receiving the front record and appending its expansion to the batch keeps every record and statement accounted for |
| Persister.FlushedAccounting | pkg/db/postgresql/server.go:298-316 | handing the batch to a commit attempt and starting a fresh batch keeps every statement accounted for, and a size-triggered attempt is full |
| Persister.DBClient.constructor | pkg/db/postgresql/server.go:71-95 | a fresh client has an empty open channel, an open pool, an empty batch, the flag clear and the persister launched |
| Persister.IsReadyToPersist | pkg/db/postgresql/server.go:150-152 | the size trigger: a batch is ready once it holds 256 or more statements |
| Persister.DBClient.PersistToDB | pkg/db/postgresql/server.go:334-336 | a send appends the record to the channel of capacity 256 (a full channel blocks, so the caller has room); a send on a closed channel panics and changes nothing |
| Persister.DBClient.FlushBatch | pkg/db/postgresql/server.go:298-316 | the batch is handed to the executor and recorded with its trigger and outcome, then reset to empty whether or not the attempt failed |
| Persister.DBClient.ExpandFront | pkg/db/postgresql/server.go:220-295 | the front record leaves the channel, is recorded as received, and its expansion is appended to the batch |
| Persister.DBClient.ReceiveRecord | pkg/db/postgresql/server.go:220-306 | after a record's statements are appended, a batch of 256 or more is flushed with the size trigger and reset; a smaller one is kept |
| Persister.DBClient.Step | pkg/db/postgresql/server.go:199-317 | the loop exits if and only if the flag was set and the channel empty, without flushing; either signal sets the flag, which is never cleared; a record is expanded then size-checked; a tick flushes and resets; the invariant is kept |
| Persister.DBClient.Await | pkg/db/postgresql/server.go:219-317 | the blocking select: a record is received and expanded, then size-checked; a tick flushes the batch and resets it |
| Persister.DBClient.Drain | pkg/db/postgresql/server.go:201-218 | once the flag is set and no producer sends, the persister receives everything queued and then leaves its loop; earlier attempts are kept and every attempt added is size-triggered, so there is no final flush |
| Persister.DBClient.Close | pkg/db/postgresql/server.go:322-332 | when the persister takes the done signal, the events are: signal, persister exit, pool closed, channel closed, in that order; every record sent before was received; with records queued, every later attempt is size-triggered (no final flush), and with none queued the one tick before the exit flushes the pending batch; when the persister has stopped or is about to stop, `Close` never completes |
| Persister.DBClient.ShutDown | pkg/db/postgresql/server.go:199-326 | the persister takes the done signal, drains the channel and leaves its loop: nothing queued means the one tick flushes the pending batch; records queued means every later attempt is size-triggered, so there is no final flush |
| Persister.DBClient.CloseResources | pkg/db/postgresql/server.go:327-331 | the pool is closed, then the channel |
| Persister.NewDBClient | pkg/db/postgresql/server.go:47-98 | an empty login string is refused first with no client; then a connection, ping or table-setup error yields no client; otherwise (non-empty login, no connection or ping error, no table error when setup is asked for) a fresh client with its persister launched |
| Persister.AccountedStatements | pkg/db/postgresql/server.go:220-316 | the statements of all commit attempts plus the open batch number exactly the total fan-out of the records received |
| Persister.ReceivedStatements | pkg/db/postgresql/server.go:220-306 | appending a record's expansion to the batch keeps flushed statements plus batch equal to the concatenated expansions |
| GoInts.AddU64 | src/metrics/peer.go:113 | `uint64` addition: exact below 2^64, minus 2^64 on overflow |
| GoInts.WrapInt64 | src/metrics/peer.go:218 | the value an int64 `+=` leaves: in range, and equal to the exact value when that is in range |
| GoInts.WrapInt64Wraps | src/metrics/peer.go:218 | outside the range the int64 value is off from the exact one by a multiple of 2^64 (a wrap, not a saturation) |
| GoInts.SaturateInt64 | src/metrics/peer.go:216 | the `time.Time.Sub` result is in range, has the sign of the exact difference, and is exact when in range |
| GoInts.SaturateInt64Clamps | src/metrics/peer.go:216 | a difference above the `int64` range gives the maximum, one below it the minimum |
| GoInts.WrapInt64Add | src/metrics/peer.go:213-219 | accumulating into a wrapped int64 total wraps like the exact sum |
| GoInts.ModuloShift | src/metrics/peer.go:240-243 | subtracting multiples of 2^64 does not change a value modulo 2^64 |
| Metrics.MergeRules | src/metrics/peer.go:142-179 | empty incoming peer id, node id, user agent, key, addresses and IP keep the known value, non-empty ones win; the client name and version change only while the name is "" or "Unknown"; the OS is "TODO"; a known city is only replaced by a found one that is neither "" nor "Unknown"; the metadata flags never go from true to false |
| Metrics.MergeIdempotent | src/metrics/peer.go:128-182 | merging the same host-info report twice gives the same identity as merging it once |
| Metrics.CountMessage | src/metrics/peer.go:201-208 | a message adds its topic if missing, raises that topic's count by one (modulo 2^64) and sets its last time; the first time is set only when the entry is created; other topics are untouched |
| Metrics.SumRemove | src/metrics/peer.go:241-243 | the total can be taken apart at any topic, so it does not depend on the map's iteration order |
| Metrics.SumFrame | src/metrics/peer.go:241-243 | the total depends only on the counts of the topics summed |
| Metrics.TopicCountBounded | src/metrics/peer.go:230-245 | one topic's count never exceeds the total |
| Metrics.CountMessageTotal | src/metrics/peer.go:201-208 | after a message, the total of all counts rises by exactly one modulo 2^64 |
| Metrics.FirstNotBefore | src/metrics/peer.go:215-220 | the first disconnection not earlier than a connection: every one skipped is earlier, none when all are |
| Metrics.Interval | src/metrics/peer.go:215-220 | a connection contributes a non-negative, int64-bounded interval; a matching disconnection exists exactly when one is not earlier than it, and without one the interval is 0 |
| Metrics.AddFirstInterval | src/metrics/peer.go:215-220 | the inner scan with `break` adds to the int64 total exactly the connection's `Interval` (wrapping), and nothing when no disconnection is at or after it |
| Metrics.ConnectedTime | src/metrics/peer.go:212-224 | the exact connected time is non-negative and at most one int64 maximum per connection |
| Metrics.ConnectedTimeAppend | src/metrics/peer.go:212-224 | a new connection adds its own interval and leaves the others unchanged |
| Metrics.OpenConnectionAddsNothing | src/metrics/peer.go:212-224 | a connection later than every recorded disconnection adds nothing yet |
| Metrics.IntervalGrows | src/metrics/peer.go:215-220 | a new disconnection does not change a connection that was already matched, and never lowers any interval |
| Metrics.FirstNotBeforeExtend | src/metrics/peer.go:215-220 | appending a disconnection keeps an existing match, and otherwise matches the new one exactly when it is not earlier |
| Metrics.ConnectedTimeMonotone | src/metrics/peer.go:212-224 | a disconnection event never lowers the exact connected time |
| Metrics.FirstNotBeforeFrom | src/metrics/peer.go:215-220 | the inner scan's break index is the first disconnection not earlier than the connection |
| Metrics.Peer.constructor | src/metrics/peer.go:58-89 | a new peer has only its id; empty identity fields, no attempt, `Error` = "None", not connected, no times, no messages, `LastExport` = 0 |
| Metrics.Peer.ResetDynamicMetrics | src/metrics/peer.go:91-94 | `Attempts` is 0 and the message map empty; no other field can change |
| Metrics.Peer.ConnectionEvent | src/metrics/peer.go:97-101 | exactly one time is appended to the connection times, the peer is connected with the given direction; the disconnection times cannot change |
| Metrics.Peer.DisconnectionEvent | src/metrics/peer.go:104-108 | exactly one time is appended to the disconnection times, the peer is disconnected with an empty direction; the connection times cannot change and the exact connected time does not decrease |
| Metrics.Peer.ConnectionAttemptEvent | src/metrics/peer.go:112-123 | `Attempts` rises by one (wrapping), `Attempted` is true, `Succeed` becomes true on success and is never cleared, `Error` is "None" on success and the filtered error otherwise |
| Metrics.Peer.FetchHostInfo | src/metrics/peer.go:128-182 | the identity fields become `MergeHostInfo` of the old ones, the report, the parsed client, the IP parsed from the report's addresses and the location looked up for that IP |
| Metrics.Peer.MergeReportedIds | src/metrics/peer.go:142-151 | peer id, node id and user agent are replaced only by non-empty reported values |
| Metrics.Peer.MergeClient | src/metrics/peer.go:152-155 | client name and version are replaced only while the name is "" or "Unknown" |
| Metrics.Peer.MergeReportedAddress | src/metrics/peer.go:157-165 | key, addresses and IP are replaced only by non-empty values |
| Metrics.Peer.MergeLocation | src/metrics/peer.go:166-169 | country and city change together, and only when a usable city was found or none is known |
| Metrics.Peer.MergeMetadataFlags | src/metrics/peer.go:174-179 | each metadata flag is taken over only while false, so it never goes from true to false |
| Metrics.Peer.MessageEvent | src/metrics/peer.go:201-208 | the map becomes `CountMessage` of the old one, and the total of all counts rises by one modulo 2^64 |
| Metrics.Peer.ConnectedTimeNanos | src/metrics/peer.go:212-224 | the loop over connections, with the inner scan in `AddFirstInterval`, computes the int64-wrapped sum of each connection's interval to its first disconnection not earlier than it; while the exact sum fits an int64 it is exact and non-negative |
| Metrics.Peer.NumOfMsgFromTopic | src/metrics/peer.go:230-236 | the count of the expanded topic name, 0 for a topic without an entry, never above the total |
| Metrics.Peer.GetAllMessagesCount | src/metrics/peer.go:239-245 | the `uint64` sum of all topic counts, computed over the keys in any order: the exact total modulo 2^64 |

## Left out

- Driver and pool calls (`pgxpool.Connect`, `Ping`, `Begin`, `SendBatch`, `Query`, `Commit`, `Close`): foreign calls. Their answers are parameters (`StoreResponse`, the error arguments of `NewDBClient`). Past the recorded results, `Query` is taken to answer the sentinel.
- The SQL builders (`UpsertHostInfo`, `UpdatePeerInfo`, `InsertNewConnEvent`, ...) and the DDL of `initTables`: their files are not part of this model. A statement is a tag plus the record it is built from, and table setup is one error argument.
- Goroutines, channels, the ticker and the wait group: the persister is modelled one loop iteration at a time (`Step`). The blocking select takes a record only when one is queued. Concurrent producers calling `PersistToDB` get no model beyond its precondition.
- Executor.PersistBatch: an aborted attempt neither commits nor rolls back its transaction (server.go:188-190), so the transaction and the pool connection it holds stay open. The model does not track open transactions, and `Persister.DBClient.Close` takes `psqlPool.Close()` (server.go:328, marked there as a hanging call) to return.
- Persister.DBClient.Drain: takes a queued record before a tick, where Go's `select` picks at random among ready cases. A tick in between would add a timer-triggered attempt, so "every attempt added is size-triggered" holds for this schedule only.
- Persister.DBClient.ShutDown: the signal is taken at the persister's next priority check, and a queued record before a tick, by the same resolution as `Drain`. Its size-triggered-only promise holds for that schedule only.
- Persister.DBClient.Close: resolves the goroutines' scheduling one way. No producer sends while it runs, the signal is taken at the persister's next priority check, and a queued record is taken before a tick. Other interleavings are not modelled.
- Persister.DBClient.PersistToDB: a send on a full open channel blocks in Go. Here the caller must have room (precondition), so the blocking itself is not modelled.
- The error value of an aborted batch (server.go:189): it wraps the `Begin` error, which is nil there, so `errors.Wrap` returns nil. The loop only logs the error in any case. The model keeps the outcome (`Aborted`), not the error value.
- Logging, including the stuck-loop warning (server.go:183-185) and `LogPeer`.
- The pool left open when `Ping` fails (server.go:65-68) or `initTables` fails (server.go:87-91): `NewDBClient` models only the returned values.
- Floating point: `Latency` (peer.go:170-172), the division by 6·10^10 in `GetConnectedTime` and `ToCsvLine`. `ConnectedTimeNanos` returns the int64 nanosecond total before the division.
- `UpdateBeaconStatus` and `UpdateBeaconMetadata` (peer.go:185-198): they store the received beacon status or metadata together with a `time.Now()` stamp. The beacon types and the clock are not part of this model, so these fields of `Peer` are left out with them.
- Metrics.ConnectedTime: the exact total is non-negative. The int64 total computed by `GetConnectedTime` is non-negative only while the exact sum fits in an int64 (`ConnectedTimeNanos` states both). Beyond that it wraps, as in Go.
- The `utils` helpers (`FilterClientType`, `GetIPfromMultiaddress`, `GetLocationFromIP`, `FilterError`, `ShortToFullTopicName`): they are parameters. Their errors are only logged, so a failing helper is taken to answer empty strings.
- Go's struct-value semantics of `NewPeer` (it returns a `Peer` value): modelled as a freshly allocated object.

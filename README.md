# akvorado ClickHouse outlet: batching and multi-destination writes

This project models the write path of akvorado's ClickHouse exporter
(`outlet/clickhouse`). It covers five parts:

- The exporter component (`root.go`) normalises the destinations it is
  given. The first destination is the primary one.
- A worker (`worker.go`) fills a batch of flows. On each `FinalizeAndSend`
  it uses the primary's size and wait thresholds to decide whether to flush.
  When it flushes, it reports its load as OK, overloaded or underloaded.
- A flush sends the batch to every destination writer, each independently of
  the others. It then clears the batch whatever the destinations answered.
- Each destination writer picks the asynchronous or the synchronous insert
  mode for the batch. It retries with backoff under its own attempt ceiling
  and drops its connection after a failed send.
- Connecting reuses a healthy connection. Otherwise it walks a random
  permutation of the destination's servers and keeps the first server that
  both dials and answers a ping.

The model is imperative wherever the Go code mutates state:

- `FlowBatch`, `DestinationWriter` and `Worker` are classes whose methods
  update their fields.
- The loops of `New`, `NewWorker`, `Flush`, the retry loop and the failover
  loop are loops (or the equivalent recursion) with invariants.
- Each method is proved against a pure specification function of the old
  state: `Connect` and `TryServers` for connecting, `Attempt` and `Retry`
  for the retry loop, `Deliveries`, `ChargedAll` and `ExceededAll` for a
  whole flush.
- The lemmas prove what the code promises about those functions.

The outside world is an oracle, one `Network` object per destination writer:

- A script of booleans gives the result of each dial, ping and insert, in the
  order the calls are made. A call made after the script runs out fails.
- A script of permutations stands for `rand.Perm`.
- Every call is appended to a log of `Event`s, so the contracts can say which
  servers were contacted, in what order and with which insert settings.
- The caller's context gives, for each destination's goroutine, the number
  of backoff waits that goroutine completes before it sees the context
  cancelled. The counts may differ from one destination to the next.
- Time is an integer count of nanoseconds. `time.Duration` saturation is
  written out.
- Metrics are ghost counters. The error counters are keyed by
  (destination, phase) and the exhaustion counters by destination.
- `minimumBatchSizeDivider` is not defined in the files modelled. It is the
  component's positive constant `divider`.

Modules: `Decimal` (`strconv.FormatUint`), `Environment` (the oracle),
`Root` (`root.go`), `Policy` (the integer rules), `Failover`
(`connectDestination` as functions), `Retries` (`flushSingleDestination`
as functions) and `Worker` (`worker.go` as classes and methods).

## Model

| member | source | states |
|---|---|---|
| Decimal.FormatUint | outlet/clickhouse/worker.go:95 | The base-10 rendering is a non-empty digit string with no leading zero; it starts with '0' only for zero, which renders as "0". |
| Decimal.ParseFormat | outlet/clickhouse/worker.go:95 | Reading the decimal rendering back gives the number (the rendering loses nothing). |
| Decimal.FormatInjective | outlet/clickhouse/worker.go:95 | Two numbers have the same decimal rendering only if they are equal. |
| Environment.NextPerm | outlet/clickhouse/worker.go:255 | The permutation drawn for n servers is always a permutation of 0..n-1, as rand.Perm guarantees. |
| Environment.DrawPerm | outlet/clickhouse/worker.go:255 | Drawing a permutation leaves the script of network outcomes untouched. |
| Environment.Network.Call | outlet/clickhouse/worker.go:257-268 | A dial, ping or insert returns the next scripted outcome, consumes it and is appended to the call log. |
| Environment.Network.CloseClient | outlet/clickhouse/worker.go:249 | Closing a client is logged, consumes no outcome and cannot fail. |
| Environment.Network.Perm | outlet/clickhouse/worker.go:255 | rand.Perm returns the next scripted permutation, consumes it and makes no network call. |
| Root.Bump | outlet/clickhouse/worker.go:206 | Incrementing a labelled counter raises that label's count by n and leaves every other label's count unchanged. |
| Root.Metrics.constructor | outlet/clickhouse/root.go:66 | Every counter and observation of a new component starts empty. |
| Root.Component.constructor | outlet/clickhouse/root.go:51-55 | A component keeps the destinations and the divider it is built with, with fresh, empty metrics. |
| Root.Component.PrimaryConfig | outlet/clickhouse/root.go:71-76 | The primary configuration is the first destination's configuration, or the zero configuration when there is no destination. |
| Root.New | outlet/clickhouse/root.go:50-68 | There is exactly one destination per dependency, in the same order, with name, database and configuration copied unchanged; the error is always nil and the metrics start empty. |
| Policy.Since | outlet/clickhouse/worker.go:114 | now.Sub(last) stays within the Duration range: it is the exact difference when that fits, the largest Duration above the range and the smallest below it, and the largest Duration from the zero time. |
| Policy.Classify | outlet/clickhouse/worker.go:124-132 | Overloaded iff batchSize >= MaximumBatchSize; underloaded iff below it and at most MaximumBatchSize/divider; OK iff strictly between. The three cases are exclusive and exhaustive, and overloaded takes precedence. |
| Policy.ShouldFlush | outlet/clickhouse/worker.go:116 | A flush is due when the batch reached the primary's MaximumBatchSize or the wait since the last flush reached its MaximumWaitTime. |
| Policy.IsSmallBatch | outlet/clickhouse/worker.go:127 | A batch is small when it holds at most MaximumBatchSize/divider flows, rounded down. |
| Policy.SmallBatchFits | outlet/clickhouse/worker.go:127 | A batch is small exactly when divider batches of its size fit within MaximumBatchSize: the rounded-down division loses no small batch and admits no larger one. |
| Policy.Decide | outlet/clickhouse/worker.go:116-132 | The returned status is overloaded iff the size threshold is reached. It is underloaded iff the wait threshold forced a flush of a small batch. It is OK iff nothing was flushed or the batch was of moderate size. |
| Policy.ZeroPrimaryAlwaysOverloaded | outlet/clickhouse/root.go:72-74 | With the zero primary configuration (no destination), every evaluation flushes and reports an overloaded worker. |
| Policy.AsyncIffUnderloaded | outlet/clickhouse/worker.go:169-172 | For a batch below the size threshold, the primary inserts asynchronously exactly when the flush reports an underloaded worker. |
| Policy.Milliseconds | outlet/clickhouse/worker.go:95 | Duration.Milliseconds of a non-negative duration: the whole number of milliseconds it holds, rounded down. |
| Policy.AsyncSettings | outlet/clickhouse/worker.go:82-97 | Exactly three settings: async_insert=1 and wait_for_async_insert=1, both important, then an unimportant busy timeout. The timeout is a decimal string that reads back as MaximumWaitTime in milliseconds. |
| Policy.SettingsFor | outlet/clickhouse/worker.go:169-172 | A destination sends with its asynchronous settings iff the flow count is at most its own MaximumBatchSize/divider, and with no settings otherwise. |
| Failover.TryServers | outlet/clickhouse/worker.go:254-288 | The failover loop never dials more servers than the permutation lists, and it returns nil whenever it leaves a connection. |
| Failover.TryServersOrder | outlet/clickhouse/worker.go:255-286 | The failover loop dials servers in permutation order and stops at the first connection. The dialled indexes are a prefix of the permutation, and all of it when nothing connected. |
| Failover.TryServersFirst | outlet/clickhouse/worker.go:255-285 | The connection is the first server of the permutation that both dials and pings: the servers dialled before it, run alone on the same outcomes, connect nothing. |
| Failover.TryServersConnectsLast | outlet/clickhouse/worker.go:279-285 | A connection is to the server dialled last, and the loop then returns nil. |
| Failover.TryServersLastError | outlet/clickhouse/worker.go:254-288 | When nothing connects, the error returned is the last server's error. Over an empty permutation the loop returns the error it started with (nil when called), no connection and no call. |
| Failover.TryServersConnectsAfterPing | outlet/clickhouse/worker.go:257-285 | When a server becomes the connection, the last two calls the loop made were that server's dial and its ping. |
| Failover.TryServersConsumesFront | outlet/clickhouse/worker.go:255-286 | Each dial and ping takes the next outcome of the script: what the loop leaves is a suffix of the script it was given. |
| Failover.TryServersConnectsOnSuccesses | outlet/clickhouse/worker.go:257-285 | A server is kept only after its dial and its ping both succeeded: the last two outcomes the loop consumed were successes. A server whose dial or ping failed is never kept. |
| Failover.TryServersKeepsPerms | outlet/clickhouse/worker.go:255-286 | The failover loop itself draws no permutation. |
| Failover.Connect | outlet/clickhouse/worker.go:242-288 | connectDestination dials at most one server per destination server, and returns nil whenever it leaves a connection. |
| Failover.ConnectReusesHealthy | outlet/clickhouse/worker.go:244-247 | A healthy connection is reused: exactly one ping, no dial, no permutation drawn, nil returned. |
| Failover.ConnectDropsUnhealthy | outlet/clickhouse/worker.go:244-255 | An unhealthy connection is pinged, then closed before any dial, and exactly one permutation is drawn. |
| Failover.ConnectFailsOver | outlet/clickhouse/worker.go:242-288 | Without a healthy connection, connecting fails over along one fresh permutation. Each server is tried at most once, in order. The result is either a connection to the last server tried and nil, every server before it having failed its dial or ping, or no connection, every server tried and the last error. |
| Failover.FailoverFromStart | outlet/clickhouse/worker.go:254-288 | The failover loop run from a nil last error over a whole permutation satisfies that same failover description, first success included. |
| Failover.PrefixOfPermutation | outlet/clickhouse/worker.go:255 | The servers tried along a permutation are valid indexes, none tried twice. |
| Failover.SilentServersNeverConnect | outlet/clickhouse/worker.go:255-288 | When every network call fails, no server becomes the connection. |
| Failover.ConnectResult | outlet/clickhouse/worker.go:242-288 | With at least one server, connecting returns nil exactly when it leaves a connection. With no server and no connection, it returns nil and leaves none. |
| Failover.FirstHealthyServerWins | outlet/clickhouse/worker.go:255-285 | Two servers that both answer: the first of the permutation is dialled, pinged and kept, and the second is never dialled. |
| Failover.ThirdServerScenario | outlet/clickhouse/worker.go:242-288 | Three servers in identity order, the first two refusing the dial: the third is dialled, pinged and kept. A later call with a healthy ping reuses it without dialling. |
| Retries.Failures | outlet/clickhouse/worker.go:206-222 | A failed attempt raises exactly one error counter, the connect counter exactly when the connection failed; a delivered batch raises none. |
| Retries.Attempt | outlet/clickhouse/worker.go:200-237 | One attempt succeeds exactly when it leaves a connection. A failed connect leaves none, and a failed send drops the connection. |
| Retries.AttemptEvents | outlet/clickhouse/worker.go:210-230 | A successful attempt ends by sending the batch, with the chosen settings, to the connected server. A failed send is followed by closing that same connection. |
| Retries.Retry | outlet/clickhouse/worker.go:180-238 | backoff.Retry around the operation makes at most one attempt per completed backoff wait plus the first. |
| Retries.Settle | outlet/clickhouse/worker.go:186-238 | Once under the ceiling, the operation makes at least one attempt and at most one per completed backoff wait plus the first. |
| Retries.RetryCeiling | outlet/clickhouse/worker.go:180-198 | With maxRetries = n > 0, at most n attempts do any I/O. The call gives up only after exactly n of them. |
| Retries.RetryCancelled | outlet/clickhouse/worker.go:186-237 | Under any ceiling, a failed attempt is retried while backoff waits remain: a loop that ends cancelled made one attempt per completed wait plus the first, all within the ceiling. |
| Retries.RetryErrorKinds | outlet/clickhouse/worker.go:180-198 | The loop returns nil, the cancellation, or the max-retries error naming this destination and its own ceiling, and nothing else. |
| Retries.RetryExhaustion | outlet/clickhouse/worker.go:186-198 | The exhaustion counter grows at most once, and exactly when the max-retries error is returned. |
| Retries.RetryUnbounded | outlet/clickhouse/worker.go:180-184 | With maxRetries = 0 there is no ceiling: the loop ends by delivering or by cancellation, never with the retry error, and a cancelled loop made one attempt more than the waits it was allowed. |
| Retries.RetryAccounting | outlet/clickhouse/worker.go:200-237 | Every attempt that did I/O either delivered (only the last, and at most once) or raised exactly one of the connect and send error counters. |
| Retries.RetryKeepsConnectionOnlyOnSuccess | outlet/clickhouse/worker.go:224-237 | flushSingleDestination returns nil exactly when the writer keeps a connection; a failed loop leaves none. |
| Retries.SilentNeverDelivers | outlet/clickhouse/worker.go:200-237 | Servers that never answer never get the batch: the loop always returns an error. |
| Retries.SilentDestinationUsesWholeCeiling | outlet/clickhouse/worker.go:186-237 | A destination with ceiling n whose servers never answer, given at least n backoff waits, makes all n attempts and then returns the max-retries error with the exhaustion counter raised once. |
| Retries.FailingDestinationGivesUpAfterOne | outlet/clickhouse/worker.go:186-208 | maxRetries = 1 against unreachable servers gives one attempt, one connect error, no send error, then the max-retries error with the exhaustion counter raised once. |
| Worker.FlowBatch.Finalize | outlet/clickhouse/worker.go:111 | Finalizing seals the batch. The count already includes the flow being built, as FlowCount() reports it after Finalize, so it is unchanged. |
| Worker.FlowBatch.Clear | outlet/clickhouse/worker.go:163 | Clearing empties the batch. |
| Worker.DestinationWriter.constructor | outlet/clickhouse/worker.go:76-98 | A writer copies its destination's name, servers, configuration and retry ceiling, gets the destination's asynchronous settings, and starts with no connection. |
| Worker.Deliveries | outlet/clickhouse/worker.go:149-154 | What the goroutines of the first n destinations end with: one retry loop per destination, in writer order. |
| Worker.DeliveriesAt | outlet/clickhouse/worker.go:149-154 | The i-th destination's outcome in a flush is its own retry loop from its own state, under its own count of backoff waits, whatever the other destinations did. |
| Worker.ChargedAll | outlet/clickhouse/worker.go:144-154 | The error counters after a flush: each destination's retry loop charges its connect and send errors under its own name. |
| Worker.ExceededAll | outlet/clickhouse/worker.go:144-154 | The exhaustion counters after a flush: each destination's retry loop adds its exhaustion count under its own name. |
| Worker.ChargedAllCounts | outlet/clickhouse/worker.go:144-154 | Destinations with distinct names count errors independently: each one's connect and send counters grow by exactly its own retry loop's errors. |
| Worker.ExceededAllCounts | outlet/clickhouse/worker.go:144-154 | Each destination's exhaustion counter grows by exactly its own retry loop's count, independently of the others. |
| Worker.Worker.constructor | outlet/clickhouse/worker.go:64-69 | A new worker holds its component, batch and writers, and its last flush is the zero time. |
| Worker.Worker.FinalizeAndSend | outlet/clickhouse/worker.go:110-133 | The status is Decide on the primary's thresholds. Without a flush: last and the count are unchanged, the batch is finalized, and metrics and destinations are untouched. With a flush: a wait time is recorded iff last was non-zero, every destination is flushed, last becomes the flush time, and exactly the matching load counter is raised. |
| Worker.Worker.FlushAndReport | outlet/clickhouse/worker.go:116-131 | The flushing branch records the wait time iff last was non-zero, flushes, resets last, and returns Classify with the matching counter raised once. |
| Worker.Worker.Report | outlet/clickhouse/worker.go:123-130 | After a flush, last becomes the flush time. The status is Classify, and only the counter of that status grows, by one. |
| Worker.Worker.Flush | outlet/clickhouse/worker.go:138-164 | An empty batch changes nothing. Otherwise every destination runs its own retry loop and the counters grow by exactly those loops' counts. The batch is then cleared whatever the destinations answered. |
| Worker.Worker.FlushAll | outlet/clickhouse/worker.go:149-160 | The loop over the writers leaves every destination where its own retry loop ends. It charges the error and exhaustion counters with exactly those loops, and touches nothing else. |
| Worker.Worker.FlushNext | outlet/clickhouse/worker.go:149-154 | One turn of the loop runs destination k's retry loop and changes only destination k's writer, network and counters. |
| Worker.Worker.FlushDestination | outlet/clickhouse/worker.go:151-153 | The goroutine of destination k leaves that destination where its retry loop ends and every other destination unchanged. |
| Worker.Worker.FlushSingleDestination | outlet/clickhouse/worker.go:167-239 | Asynchronous settings are used iff the batch is small for this destination. maxRetries = 0 means no ceiling. The error, connection, network calls and counter increments are those of the Retry specification. |
| Worker.Worker.BackoffRetry | outlet/clickhouse/worker.go:186-238 | The backoff loop around the operation: past the ceiling it does no I/O, raises the exhaustion counter and gives up for good. Otherwise it attempts, stops on success or cancellation, and retries. Its result equals Retry. |
| Worker.Worker.SendOnce | outlet/clickhouse/worker.go:200-237 | One attempt matches Attempt. A connect failure raises the connect counter, a send failure raises the send counter and drops the connection, and success keeps it. |
| Worker.Worker.ConnectDestination | outlet/clickhouse/worker.go:242-288 | connectDestination's connection, error, calls and environment are exactly those of Connect. |
| Worker.Worker.TryServersInOrder | outlet/clickhouse/worker.go:254-288 | The failover loop over the drawn permutation ends exactly as TryServers says. |
| Worker.Worker.DialAndPing | outlet/clickhouse/worker.go:256-277 | A failed dial gives the dial error. A failed ping closes the new client and gives the ping error. Otherwise the client is kept with a nil error. |
| Worker.NewWorker | outlet/clickhouse/worker.go:63-103 | One fresh writer per destination, in the same order, with name, servers, configuration, ceiling and asynchronous settings copied, and no connection. The worker is valid iff every destination has a server. Names are also unique iff the destinations are well formed. |
| Worker.NewWriters | outlet/clickhouse/worker.go:71-100 | The append loop builds exactly one fresh, distinct writer per destination, in order. |
| Worker.WritersWellFormed | outlet/clickhouse/worker.go:72-81 | Writers built one per destination have unique names and a server each exactly when the destinations do. |

## Left out

- Worker.Worker.FlushAll: the goroutines of the error group run one after the other, in the order of the writers. Each touches only its own writer and network, counter increments commute, and each goroutine keeps its own count of completed backoff waits, so a concurrent run whose goroutines complete those counts ends in the same state. The interleaving of their calls in time and the logging of the group's error are not modelled.
- Retries.Retry: backoff intervals, jitter and sleeping are not modelled. The context is reduced to the number of backoff waits the goroutine completes before it sees the cancellation, and a cancelled loop returns `Cancelled` rather than the context's own error. A cancellation that interrupts a dial, ping or insert appears as a failed outcome in the script.
- Environment.Network: the ch-go client (`Dial`, `Ping`, `Do`, `Close`), the query body and the `flows_<hash>_raw` table name are replaced by scripted outcomes and a call log.
- Environment.NextPerm: `rand.Perm` is a script of permutations. A scripted entry that is not a permutation of the server indexes, or an exhausted script, stands for the identity permutation.
- Worker.Worker.Valid: each writer must have at least one server, as the configuration validator guarantees. With no server, `connectDestination` returns nil with no connection and the insert would go through a nil client; the model states that return in `Failover.ConnectResult` and does not go further.
- Root.DestinationDependency: the database dependency is reduced to its server list (`ChGoOptions`) and `MaxRetries`. `maxRetries` is a natural number because the validator refuses negative values. The ch-go options, including the `Address` that `connectDestination` overwrites, are not modelled.
- Policy.Since: time is integer nanoseconds. `time.Now` becomes the parameters `now` and `flushedAt`. From the zero time the elapsed duration is taken to be the largest `Duration`, which is what `Sub` gives for any present-day clock.
- Policy.Milliseconds: durations are non-negative (`nat`), so the `uint64` conversion of a negative millisecond count is not modelled.
- Policy.Classify: the `int` and `uint` conversions of the batch size and thresholds are not modelled. Sizes are unbounded naturals, which agrees with the source for every non-negative value that fits.
- Root.Metrics: the `insertTime` and `flows` histograms, the float conversion of the wait time (observed as nanoseconds rather than seconds) and metric registration are not modelled.
- Root.New: the reporter, the schema dependency and the logger are not modelled. `minimumBatchSizeDivider` is the constructor's `divider`.
- Worker.FlowBatch: a `schema.FlowMessage` is reduced to its flow count and whether it was finalized. Its ClickHouse protocol input is not modelled.
- Logging through `reporter.Logger` is left out everywhere.

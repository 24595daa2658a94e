# Verification model of the event pipeline, limiters, delivery queue, sessions and post log

Dafny models of the parts of the service whose correctness depends on more than one function, with proofs.
`dafny verify dfyconfig.toml` checks everything.

**The event pipeline.** A transaction writes an outbox row. A relay claims due rows under a lease, publishes each one and
marks it. A consumer decodes a record, runs its handler inside one inbox transaction (version watermark, dedupe row,
handler), may copy the record to a retry or dead-letter topic, and then commits the offset. An operator puts dead letters
back on their source topic. `Headers`, `Events`, `Kafka`, `Inbox`, `Outbox`, `Relay`, `Consumer` and `ReplayTool` model
the code file by file: value functions say what each operation does, and classes and methods written like the code are
proved to do that. `Pipeline` composes the same functions into a labelled transition system in which crashes, lost
acknowledgements, appends that land late, redelivery, expired leases and rebalances are ordinary steps. A stopped
consumer whose publish is still under way is a session that has not yet stopped; its copy keeps its earlier time stamp. `Lineage`,
`NoLoss` and `Agreement` prove what every reachable state satisfies. `Simulation` and `FetchRuns` prove that the relay's
batch, a consumer's fetch and an operator's replay, alone or with anything the others do in between, make only steps of
that system, so those theorems hold of them.

**Rate limiters.** `SlidingWindow` is the Lua script with exact arithmetic and expiring keys; `FixedWindow` is the
in-memory map. Both are bounded over every interval one window long.

**Notification deliveries.** `DeliveryQueue` has the table's statements and the dispatcher; `DeliveryRuns` has the runs of
several workers that crash and overrun leases; `DispatchRuns` shows that a poll is such a run and that every row can be
brought to rest; `PollRuns` puts a poll among other workers and finds the batch size its lease can protect; `Fanout` has
concurrent transactions on the partial unique index.

**Sessions.** `Sessions` has the refresh-token table and the handlers; `SessionRuns` interleaves handlers that act late on
a user row they read early; `SessionHandlers` shows that each handler makes only steps of that system.

**Lists and posts.** `Keyset`, `PostList` and `UserList` are the paged lists; `PostLog` and `PostRuns` are the posts
table, its events, concurrent requests, and what a consumer makes of the log.

Where the code does not do what one would expect, the model follows the code, and a lemma says exactly when the expected
property holds: reading a header after writing it (`Headers.GetAfterSetIff`), the backoff at high attempt numbers
(`Relay.RetryDelayBaseIff`), a foreign attempt header (`Consumer.HandlePanicsIff`), consumer names with dots
(`Events.FailureTopicsCollideIff`), calls with one key and no common channel (`Fanout.BothCreateIff`), batches that outlast
their lease (`DeliveryQueue.BatchFitsIff`, `PollRuns.PollsAbsorbIff`), reuse detection behind the blocklist and version
checks (`Sessions.ReuseDetectedIff`), a retry after a rotation whose answer was lost (`Sessions.RetryAfterServerError`), a
deletion event with an old version (`PostRuns.ProjectionAgreesIff`), the cursor of a zero id or time
(`Keyset.CursorRoundTrip`).

## Model

| member | source | states |
|---|---|---|
| Headers.GetAfterSetIff | internal/platform/eventing/consumer.go:261-284 | `setHeader` overwrites the first match and `headerValue` reads the last, so a read returns what was written exactly when the key occurred at most once, or already read as that value |
| Headers.GetAfterSetFailsOnDuplicates | internal/platform/eventing/consumer.go:261-284 | on a duplicated key the old value is read back |
| Headers.SetThenGet | internal/platform/eventing/consumer.go:276-284 | on unique keys a write is read back, leaves every other key alone and keeps keys unique |
| Headers.SetCounts | internal/platform/eventing/consumer.go:276-284 | a write never duplicates a key nor changes another key's count or value |
| Headers.ReplayKeeps | internal/platform/eventing/replay.go:5-16 | a replay forgets the four per-attempt keys and keeps count and value of every other one |
| Headers.HeaderList.Clone | internal/platform/eventing/consumer.go:270-274 | the copy is a slice of its own, so writes to it leave the polled record alone |
| Headers.HeaderList.Set | internal/platform/eventing/consumer.go:276-284 | the in-place loop does what `SetHeader` says |
| Headers.HeaderList.Get | internal/platform/eventing/consumer.go:261-268 | the backward loop returns the last match |
| Headers.FilterForReplay | internal/platform/eventing/replay.go:5-16 | the filter loop keeps exactly what `ReplayHeaders` keeps |
| Headers.NamesAndKeys | internal/platform/eventing/consumer.go:18-26 | every header name has its own key, the tracking names the keys that stand for them |
| Text.AtoiOfItoa | internal/platform/eventing/consumer.go:249-252 | every 64-bit attempt number survives being written as header text and parsed again |
| Text.AtoiAnswers | internal/platform/eventing/consumer.go:249-252 | digits with or without a sign read as their number, clamped to 64 bits; anything else reads 0 |
| Events.TopicKindsDisjoint | internal/platform/event/topic.go:8-25 | source, retry and dead-letter topics never share a name |
| Events.FailureTopicsInjective | internal/platform/event/topic.go:19-25 | a failure topic determines its source topic and its consumer, consumer names having no dot |
| Events.FailureTopicsCollideIff | internal/platform/event/topic.go:19-25 | some source topics give two consumer names one retry topic exactly when one name is the other one behind the tail of a source topic |
| Inbox.CommitKeepsInv | internal/platform/inbox/store.go:38-96 | a committed transaction keeps: one effect per consumer and event, versions per subject non-decreasing, inbox rows and watermarks mirroring the effects |
| Inbox.ProcessMeaning | internal/platform/inbox/store.go:38-64 | what applied, duplicate, stale and failed each mean; everything but applied leaves the tables as they were |
| Inbox.ProcessAnswers | internal/platform/inbox/store.go:38-64 | the whole table of answers from what was handled before: superseded is stale, handled is duplicate, else the handler decides; a failure of either kind leaves nothing behind |
| Inbox.StaleIffSuperseded | internal/platform/inbox/store.go:66-84 | an event is refused as stale exactly when a strictly newer one of its subject was handled |
| Inbox.Store.RejectStale | internal/platform/inbox/store.go:66-84 | the query's answer is the staleness test on the stored watermark |
| Inbox.Store.AdvanceWatermark | internal/platform/inbox/store.go:86-96 | the upsert keeps the greater version and touches no other subject |
| Inbox.Store.Process | internal/platform/inbox/store.go:38-64 | the statements in order, with rollback, have the effect of one atomic transaction |
| Outbox.EverClaimableIff | internal/platform/outbox/store.go:94-110 | a row can be claimed at some later time exactly when it is unpublished and has attempts left, whatever its lock and delay |
| Outbox.ClaimHoldsForLease | internal/platform/outbox/store.go:99-104 | a claimed row is nobody's to take until the lease is over, and anybody's right after it, if still due, unpublished and with attempts left |
| Outbox.PublishedStaysOut | internal/platform/outbox/store.go:167-194 | no mark, late or not, brings a published row back |
| Outbox.ClaimSpends | internal/platform/outbox/store.go:91-165 | a claim uses up one attempt of the remaining budget per row it takes |
| Outbox.Store.Enqueue | internal/platform/outbox/store.go:48-89 | an invalid event and a known id are refused; else exactly one new row, due now, with no attempt used |
| Outbox.Store.Claim | internal/platform/outbox/store.go:91-165 | exactly the rows unpublished, due, below the cap and free or locked longer than the lease are candidates; it takes all of them unless the limit is reached, no later one before an earlier one, each once; it locks them, counts an attempt, changes nothing else, and none is a candidate again before its lease is over |
| Outbox.Store.MarkPublished | internal/platform/outbox/store.go:167-181 | sets the publication time and frees the lock without asking who holds it; an unknown id is an error |
| Outbox.Store.MarkFailed | internal/platform/outbox/store.go:183-194 | delays the row and frees the lock without asking who holds it |
| Relay.RetryDelayBaseIff | internal/platform/eventing/relay.go:117-124 | the base delay is min(2^(n-1), 60) seconds exactly for n up to 34; beyond, the float no longer fits 64 bits and the delay is the smallest integer |
| Relay.RetryDelayBounds | internal/platform/eventing/relay.go:108-124 | within the attempt cap the delay lies between a second and 75 seconds, never under the base, and the base grows with attempts |
| Relay.ProducedIsFreshIff | internal/platform/kafka/producer.go:20-40 | row headers are published under their own names: a failure-tracking header is absent from the record exactly when the row has none of that name |
| Relay.ProducedIsFresh | internal/platform/kafka/producer.go:20-40 | so the record of a row without such headers is its own source at attempt zero |
| Relay.SettleRecord | internal/platform/eventing/relay.go:87-99 | one record: publish, then mark published or failed; a mark may be lost, or land although an error comes back |
| Relay.SettleAnswers | internal/platform/eventing/relay.go:86-106 | row by row: a record the loop came to is published and free if its publish was acknowledged, else free and due after a wait between the base delay of its attempt and 5/4 of it; a lost mark leaves it as it was |
| Relay.SettleStops | internal/platform/eventing/relay.go:86-106 | rows of other ids are not touched, and the loop stops exactly when a mark is not confirmed or finds no row |
| Relay.SettleWrites | internal/platform/eventing/relay.go:86-99 | the log gets one record, with the row's topic, key, event and headers, for each record the loop came to whose publish was not dropped, in order |
| Relay.SettleBatch | internal/platform/eventing/relay.go:86-106 | record after record up to the first failed mark: the rows and the appended records of the whole loop |
| Relay.RunBatch | internal/platform/eventing/relay.go:81-106 | the same from the claim on: the claimed rows come with their counted attempt, and nothing else is touched |
| Consumer.RetryDelayPanicsIff | internal/platform/eventing/consumer.go:222-228 | the slice access panics exactly for attempt numbers below 1 other than the smallest integer; else it is the delay of that attempt, or the last one |
| Consumer.HandlePanicsIff | internal/platform/eventing/consumer.go:138-187 | `handle` panics exactly when an attempt fails transiently on a record whose attempt header, plus one, is below 1 and not the smallest integer |
| Consumer.NegativeAttemptPanics | internal/platform/eventing/consumer.go:173-182 | any fresh event whose handler fails transiently, with "-5" in that header, crashes the consumer and leaves the inbox and the log as they were |
| Consumer.FailureHeadersMeaning | internal/platform/eventing/consumer.go:189-220 | each header of a forwarded record: attempt, original topic, consumer, times, class; first failure time written once; foreign headers kept |
| Consumer.AttemptMeaning | internal/platform/eventing/consumer.go:138-172 | an attempt that ends without error left the event handled or superseded, and the tables only grow |
| Consumer.AttemptAnswers | internal/platform/eventing/consumer.go:138-172 | what an attempt ends in, case by case: no event, schema failure, unknown type, lost database, known event, handler |
| Consumer.HandlingMeaning | internal/platform/eventing/consumer.go:138-187 | `handle` returns no error only if the event is handled, superseded, or copied with key and value to this consumer's retry or dead-letter topic |
| Consumer.HandlingRoutes | internal/platform/eventing/consumer.go:173-220 | permanent failures and the last attempt go to the dead-letter topic without a wait, other transient ones to the retry topic with the wait of their attempt; topic, class, attempt and wait of the one copy, and the result |
| Consumer.DefaultRoutes | internal/platform/eventing/consumer.go:71-84 | without configuration: after one, ten and sixty minutes, then the dead-letter topic |
| Consumer.LoopMeaning | internal/platform/eventing/consumer.go:100-122 | the poll loop commits no offset past a record for which that does not hold |
| Consumer.LoopGrows | internal/platform/eventing/consumer.go:100-122 | the loop stops exactly when an offset did not move or the last commit came back with an error though it went through, and takes nothing out of the tables or the log |
| Consumer.Worker.PublishFailure | internal/platform/eventing/consumer.go:189-220 | at most one copy appended, with those headers; the polled record is not written to |
| Consumer.Worker.TryEvent | internal/platform/eventing/consumer.go:138-172 | decode, schema check, handler lookup and inbox transaction in that order |
| Consumer.Worker.Reroute | internal/platform/eventing/consumer.go:173-187 | a permanent failure or the last attempt goes to the dead-letter topic, any other to the retry topic with its delay |
| Consumer.Worker.Handle | internal/platform/eventing/consumer.go:138-187 | the whole of `handle`: inbox, log and result |
| Consumer.Worker.Run | internal/platform/eventing/consumer.go:91-124 | one fetch: wait, handle, commit, until the first trouble; a commit may move the offset although its error ends the loop |
| ReplayTool.ReplayMeaning | cmd/replay/main.go:67-76 | a replayed record goes to its source topic with key, value, first failure time and foreign headers, no attempt counted, keys still unique |
| ReplayTool.ReplayedInOrder | cmd/replay/main.go:64-88 | the i-th copy is that of the i-th dead letter |
| ReplayTool.ReplayFetch | cmd/replay/main.go:59-90 | every record counted as replayed is in the log once and in order; after a failure at most one more copy; the limit is never passed |
| Pipeline.StepGrows | internal/platform/outbox/store.go:91-194 | no step shortens a log, forgets an effect, lowers an attempt count, changes what a row publishes, or unpublishes it |
| Lineage.ForwardedOk | internal/platform/eventing/consumer.go:173-220 | from a well-kept record `handle` never panics; the copy has unique keys, the same key, value and source, and one attempt more, within the consumer's limit |
| Lineage.ReachableLineage | internal/platform/eventing/consumer.go:189-284 | in every reachable state each record is a copy of an outbox row with unique tracking headers and a topic and attempt number that fit |
| Lineage.BoundedRetries | internal/platform/eventing/consumer.go:173-228 | in every reachable state retry records carry an attempt in [1, max), dead letters in [1, max], and no subscribed consumer can panic |
| Lineage.RetryLineage | internal/platform/eventing/consumer.go:189-220 | through any chain of retries, dead-lettering and replays: key, value and original topic are kept, and the first failure time is write-once |
| Lineage.ForwardedAtMostMaxAttempts | internal/platform/eventing/consumer.go:173-187 | between two replays a record is forwarded at most max-attempts times |
| NoLoss.NoCommittedRecordIsLost | internal/platform/eventing/consumer.go:91-187 | in every reachable state each record below a committed offset is in the inbox, superseded by a strictly newer handled event, or copied to the consumer's retry or dead-letter topic |
| NoLoss.EffectsAtMostOnce | internal/platform/inbox/store.go:38-96 | over every run each consumer's handler takes effect at most once per event, in version order per subject, and the watermark is the greatest version |
| NoLoss.EffectsComeFromSuccess | internal/platform/inbox/store.go:38-64 | over every run each effect was made by a step in which the consumer's handler succeeded on that very event, not handled before |
| NoLoss.DrainedMeansAccountedFor | internal/platform/eventing/consumer.go:91-187 | once a consumer has committed a source topic it subscribes to and its own retry topic of it, every record of that topic was handled, superseded, or is in its dead-letter topic |
| Agreement.PublishedMeansInLog | internal/platform/outbox/store.go:167-181 | a row marked published has its record in its topic |
| Agreement.SourceRecordHasRow | internal/platform/kafka/producer.go:20-40 | every record of a source topic is the event of an outbox row with that topic and key |
| Agreement.CopiesBoundedByAttempts | internal/platform/outbox/store.go:91-165 | relayed copies plus claims that may still publish never exceed the attempts counted, nor those allowed |
| Agreement.PublishedReachesConsumer | internal/platform/eventing/relay.go:81-106 | end to end, topic by topic: for a consumer that subscribes to a published row's topic and has drained it and its retries, the row was handled, superseded or dead-lettered |
| Agreement.ClaimsAreBounded | internal/platform/outbox/store.go:91-165 | in every run total claims are at most the attempts left at the start plus 20 per enqueued row |
| Agreement.ClaimsAreApart | internal/platform/outbox/store.go:94-110 | over every run two batches that take one row, unmarked in between, are more than the lease apart |
| Agreement.QuietIffPublishedOrExhausted | internal/platform/outbox/store.go:94-110 | nothing is ever claimable again exactly when every row is published or out of attempts |
| Agreement.PublishedIsFinal | internal/platform/outbox/store.go:167-194 | after publication no batch claims the row again, whatever marks arrive late |
| Simulation.RecordIsRun | internal/platform/eventing/relay.go:87-99 | one pass of the relay loop, from any state in which the worker holds the record's claim, is a run with exactly that effect |
| Simulation.SettleIsRun | internal/platform/eventing/relay.go:86-106 | an undisturbed batch is a run of pipeline steps with the same rows and the same records in order |
| Simulation.InterleavedIsRun | internal/platform/eventing/relay.go:86-106 | a batch with any run of other workers, producers, consumers and operators before each of its records only reaches reachable states |
| Simulation.BatchIsRun | internal/platform/eventing/relay.go:81-106 | the same including the claim, so what the loop reaches is reachable |
| FetchRuns.TurnIsRun | internal/platform/eventing/consumer.go:101-122 | one pass of the consumer loop that nobody interrupts is a run of pipeline steps with exactly its effect, a commit whose confirmation is lost included |
| FetchRuns.LoopIsRun | internal/platform/eventing/consumer.go:93-122 | a fetch from one partition that nobody interrupts is a run with the same inbox and the same copies in order, and moves the offset by exactly the records the loop counts |
| FetchRuns.FetchIsRun | internal/platform/eventing/consumer.go:93-122 | a fetch from any number of partitions, with any run of other processes before each transaction, publish and commit, only reaches reachable states; each turn handles the record that was fetched, and each partition moves by its own turns |
| FetchRuns.ReplayIsRun | cmd/replay/main.go:64-88 | replaying a fetch of dead letters is a run that writes exactly their copies in order, and after a failure the one copy an unsure produce may add |
| FetchRuns.ReplayAmongIsRun | cmd/replay/main.go:64-88 | and with any run of others before each produce the tool only reaches reachable states |
| SlidingWindow.RedisLimiter.Allow | internal/platform/ratelimiter/redis.go:56-79 | the limiter's state and answer are those of the script, a non-positive window reading as one second |
| SlidingWindow.AnswerByCounts | internal/platform/ratelimiter/redis.go:16-41 | over every run, with P and C admissions in the previous and the current bucket: allowed exactly when P*(W-e)/W + C is below the limit, `remaining` is what is left of it rounded down, and the wait is the rest of the bucket |
| SlidingWindow.ExpiryChangesNothing | internal/platform/ratelimiter/redis.go:11-42 | with keys expiring two windows after their last increment, each request is decided as if no key ever expired, whatever other clients do |
| SlidingWindow.WindowAtAdmission | internal/platform/ratelimiter/redis.go:16-35 | at an admission with elapsed e and previous count P, the window ending there holds T with T*W < (L+1)*W + P*e |
| SlidingWindow.SlidingBound | internal/platform/ratelimiter/redis.go:11-42 | over any calls: no bucket admits more than L, no interval one window long more than 2L |
| SlidingWindow.TwiceLimitIff | internal/platform/ratelimiter/redis.go:11-42 | for a limit L of at least one, some run puts 2L requests into one window exactly when 2L is less than the window's milliseconds; otherwise every window holds fewer |
| SlidingWindow.RemainingIsGranted | internal/platform/ratelimiter/redis.go:11-42 | after an admitted request, of any number of further ones at that instant exactly the returned `remaining` pass, or one more where rounding down hid a fraction of a request |
| FixedWindow.MemoryLimiter.Allow | internal/platform/ratelimiter/memory.go:25-70 | the map update and the answer of one request |
| FixedWindow.AnswerByCounts | internal/platform/ratelimiter/memory.go:25-70 | over every run, windows opening at the first call after the last one ended: allowed exactly when fewer than the limit passed since the window opened, with the right remainder and wait |
| FixedWindow.FixedBound | internal/platform/ratelimiter/memory.go:25-70 | no interval one window long admits more than 2L, and a window's counter equals its admissions, at most L |
| FixedWindow.BurstTakesWhatIsLeft | internal/platform/ratelimiter/memory.go:25-70 | of n requests at once exactly as many pass as the client's current window has left, whatever the table held: unknown client, window in use, or window over |
| DeliveryQueue.Store.Claim | internal/modules/notification/store.go:429-459 | it takes only due rows, all unless the limit is reached, earliest first, each once, and changes no other row |
| DeliveryQueue.Store.Finish | internal/modules/notification/store.go:467-484 | writes status, schedule and a free lock without asking who holds the claim |
| DeliveryQueue.Store.MarkRead | internal/modules/notification/store.go:496-513 | only a sent, unread in-app row of that user changes |
| DeliveryQueue.Deliver | internal/modules/notification/dispatch.go:42-76 | sent, failed for good, or pending with the backoff of the attempt counted from the end of the send; either write may be lost, and the other still happens |
| DeliveryQueue.HandledAnswers | internal/modules/notification/dispatch.go:42-76 | the row by columns: sent, failed for good on a rejection or the last attempt, else pending after 30, 120, 600 or 3600 seconds; and one log entry |
| DeliveryQueue.DispatchOnce | internal/modules/notification/dispatch.go:28-40 | one poll: what was claimed, and the table and attempt log after all its rows |
| DeliveryQueue.BatchAnswers | internal/modules/notification/dispatch.go:28-40 | each row of a poll ends as its own send left it, the send beginning when the rows before it are done |
| DeliveryQueue.BatchFitsIff | internal/modules/notification/dispatch.go:28-76 | every row of every batch of up to `limit` rows is updated within its lease, for all durations the timeouts allow, exactly when limit * (send + 2 * query) fits the lease |
| DeliveryQueue.RowsPerLease | internal/modules/notification/dispatch.go:47-49 | with 15 second sends, 5 second queries and the 60 second lease that is two rows at most; with queries that take no time, four |
| DeliveryRuns.AttemptsLoggedOnce | internal/modules/notification/dispatch.go:42-76 | each attempt number of a delivery is logged at most once in any run, even with leases overrun |
| DeliveryRuns.CreateAnswers | internal/modules/notification/events.go:62-72 | a new row is due at once with five attempts unless told otherwise, or skipped and logged as such |
| DeliveryRuns.OneHolder | internal/modules/notification/store.go:429-459 | with updates inside their lease at most one worker holds a row, and pending means attempts are left |
| DeliveryRuns.TerminalIsFinal | internal/modules/notification/dispatch.go:42-76 | under the lease condition sent, failed and skipped are absorbing |
| DeliveryRuns.ClaimsAndBackoffBounded | internal/modules/notification/policy.go:37-48 | claims are at most max_attempts plus claims that ran out; backoff totals at most the sum over the attempts below the maximum |
| DeliveryRuns.WorkIsBounded | internal/modules/notification/store.go:429-459 | each claim and each update of a row uses up one of its rank: two per attempt left, one per claim that may run out, one while claimed |
| DeliveryRuns.WorkInNumbers | internal/modules/notification/store.go:429-484 | from its creation or any later point of a run, with at most `crashes` claims running out, a row is claimed and updated at most 2*max_attempts + crashes times |
| DeliveryRuns.WorkedOffIsTerminal | internal/modules/notification/dispatch.go:42-76 | a row whose rank has been worked off, starting unfinished or not, is sent, failed or skipped |
| DeliveryRuns.UnfinishedRowsComeDue | internal/modules/notification/store.go:432-445 | a row not yet done is claimable at some later time |
| DeliveryRuns.AbsorbingIff | internal/modules/notification/store.go:467-484 | for workers of any kind: sent, failed and skipped are absorbing in every run whose updates land within `batch` seconds of their claim exactly when that is no longer than the lease |
| DispatchRuns.DispatchIsRun | internal/modules/notification/dispatch.go:28-76 | a poll that nobody interrupts and whose batch fits is a run of the queue with the same table and log, every update inside its lease |
| DispatchRuns.RowComesToRest | internal/modules/notification/dispatch.go:42-76 | whatever the sends answer, workers that claim a row when it is due bring it to rest with no more claims and updates than its rank; when every send of a new row fails that takes all 2*max_attempts of them, so the rank is exact |
| PollRuns.PollIsRun | internal/modules/notification/dispatch.go:28-76 | a poll among other workers, who may act before each of its updates and log entries, makes only steps of the queue, in its lease or not |
| PollRuns.PollOwnsItsRows | internal/modules/notification/dispatch.go:28-76 | if its batch fits the lease, whatever the others do meanwhile, each of its updates is in its lease and meets the row exactly as it was claimed |
| PollRuns.PollsAbsorbIff | internal/modules/notification/dispatch.go:28-76 | no poll of up to `limit` rows within the timeouts takes a row out of sent, failed or skipped, exactly when limit * (send + 2 * query) fits the lease; else the last row of a poll that slow is claimed and sent by another worker and then set back to pending |
| PollRuns.DefaultBatchResends | internal/platform/config/notification.go:32 | with the code's timeouts that means batches of at most two rows; the default of 25 can resend |
| Fanout.Table.Enqueue | internal/modules/notification/events.go:28-99 | alone: a known key returns its rows, a new one one row per channel, a repeated channel under a key nothing |
| Fanout.CallIsRun | internal/modules/notification/events.go:50-99 | a call that meets no other one is a run of the concurrent system with the same rows and answer |
| Fanout.RowPerChannel | internal/modules/notification/events.go:32-62 | a call makes one row for each channel it names, and for all five when it names none |
| Fanout.FanOutOnce | internal/modules/notification/events.go:28-99 | however calls with one key and overlapping distinct channels interleave, conflict or crash, exactly one creates, one row per channel, and every call that returns gives those rows |
| Fanout.CreatorsAreDistinct | internal/modules/notification/store.go:290-293 | a keyed call that repeats a channel never creates anything |
| Fanout.DisjointCallsBothCreate | internal/modules/notification/events.go:28-99 | any two calls with one key, no repeated channel and none in common have a run in which both create |
| Fanout.BothCreateIff | internal/modules/notification/events.go:28-99 | and only those: in some run both create exactly when neither repeats a channel and they share none |
| Sessions.RefreshStore.Rotate | internal/modules/user/refresh_store.go:74-115 | unknown, revoked (reuse) or rotated: old row revoked and linked, new row inserted, in one transaction, which may also be rolled back, or be committed although an error comes back |
| Sessions.RefreshStore.RevokeAllForUser | internal/modules/user/refresh_store.go:131-143 | every session of the user, and no other, ends revoked |
| Sessions.Auth.HandleRefresh | internal/modules/user/auth.go:144-221 | type, blocklist, user, version, rotation, in this order; a database error of the rotation ends the call, reuse revokes all sessions and raises the version as far as these two writes succeed |
| Sessions.Auth.HandleLogin | internal/modules/user/auth.go:316-327 | a login opens one session and signs a pair with the version it read |
| Sessions.Auth.HandleLogout | internal/modules/user/auth.go:237-281 | a refresh token of one's own is revoked, and each of the two tokens banned if the blocklist takes it; nothing else changes |
| Sessions.Auth.HandleLogoutAll | internal/modules/user/auth.go:294-314 | all sessions revoked, version raised, the access token banned |
| Sessions.LoginAnswers | internal/modules/user/auth.go:316-370 | a login of a known user opens one live session of its own, and the pair works: the access token passes, the refresh token does not but buys the next pair |
| Sessions.RefreshAnswers | internal/modules/user/auth.go:144-221 | a pair is the answer exactly when type, blocklist, version, session and store allow; then the old session is over, continued by the new one, nothing else changes, and the pair works |
| Sessions.RefreshRefusals | internal/modules/user/auth.go:144-216 | every other answer, and what it leaves behind: the first check that fails says why |
| Sessions.LogoutAnswers | internal/modules/user/auth.go:237-281 | what a logout leaves: that session revoked, each ban that worked, nothing else |
| Sessions.LogoutKills | internal/modules/user/auth.go:237-281 | neither token is good for anything after it, as far as the writes went through |
| Sessions.LogoutAllAnswers | internal/modules/user/auth.go:294-314 | what a logout-all leaves: every session of the user revoked, the version one higher, the ban if it worked, nothing else |
| Sessions.LogoutAllKills | internal/modules/user/auth.go:294-314 | no token signed before it passes the middleware, with or without the blocklist, or buys a pair |
| Sessions.ReuseDetectedIff | internal/modules/user/auth.go:172-216 | a spent refresh token sets off the kill exactly when it is neither banned nor of an old version and the store answers |
| Sessions.SecondUseOfToken | internal/modules/user/auth.go:172-221 | a second use right after rotation is answered by the ban of the first, and detected as reuse only if that ban was lost |
| Sessions.RetryAfterServerError | internal/modules/user/auth.go:193-209 | a client that asks again after a server error is answered as if for the first time if the rotation was rolled back, and taken for a thief if it had been committed |
| SessionRuns.RotationChains | internal/modules/user/refresh_store.go:74-143 | over all interleavings: one live session at most per login, at most one successor and one predecessor each, replaced means revoked, a successor is later and of the same user and login |
| SessionRuns.NoCycles | internal/modules/user/refresh_store.go:74-115 | following `replaced_by` never returns and always ends |
| SessionRuns.RunKeepsInv | internal/modules/user/auth.go:316-370 | every signed token carries a version at most the user's current one, and a refresh token's session exists and belongs to its user |
| SessionRuns.VersionsRise | internal/modules/user/store.go:280-343 | token versions never decrease |
| SessionRuns.VersionKill | internal/platform/authz/authz.go:61-152 | after a bump every token signed before it, or signed later from a row read before it, is refused in all later states, even while the blocklist is unreachable |
| SessionRuns.HandlersSignWhatTheyRead | internal/modules/user/auth.go:329-370 | a handler's pair carries the version its handler read |
| SessionRuns.SpentOnce | internal/modules/user/refresh_store.go:74-115 | however many handlers hold a refresh token at once, and whether or not its ban took, it is rotated at most once in a run |
| SessionHandlers.RefreshIsRun | internal/modules/user/auth.go:144-221 | a refresh is a run of the interleaved system whatever its outcome, and signs only its own pair |
| SessionHandlers.LoginIsRun | internal/modules/user/auth.go:316-327 | so is a login |
| SessionHandlers.LogoutIsRun | internal/modules/user/auth.go:237-281 | so is a logout |
| SessionHandlers.LogoutAllIsRun | internal/modules/user/auth.go:294-314 | and so is a logout from all sessions |
| SessionHandlers.ReuseOverRuns | internal/modules/user/auth.go:172-216 | once rotated in a run, a refresh token signs nothing in any later state, and is found out exactly when no ban and no newer version answers first and the store answers |
| Keyset.Page | internal/modules/post/store.go:290-363 | a keyset page is the first rows beyond the cursor, with a cursor to its last row exactly when full; an offset page is a slice of some order the sort column allows, with the count and never a cursor; a bad cursor is an error |
| Keyset.KeyOrder | internal/modules/post/store.go:319-331 | rows come by creation time, then by id, up or down, and of two rows exactly one first |
| Keyset.Query | internal/modules/post/store.go:319-331 | the keyset query: filtered, ordered by (created_at, id), cut by the limit, bodies as in the table |
| Keyset.OffsetQuery | internal/modules/post/store.go:332-341 | the offset query: a slice of the filtered rows in some order that agrees with the sort column, ties left open |
| Keyset.OffsetPageInOrder | internal/modules/post/store.go:332-341 | on an offset page the sort column never runs backwards |
| Keyset.WalkNeverRepeats | internal/modules/post/store.go:290-363 | with arbitrary changes between requests no row comes twice, and rows come in order |
| Keyset.WalkReturnsMatches | internal/modules/post/store.go:290-363 | every returned row matched when its page was read |
| Keyset.WalkMissesNothing | internal/modules/post/store.go:290-363 | a row that matched throughout is returned by every walk that ends |
| Keyset.WalkEnds | internal/modules/post/store.go:360-363 | a walk has no more full pages than the rows it could ever meet can fill |
| Keyset.NewestFirstWalkEnds | internal/modules/post/store.go:290-363 | rows created meanwhile cannot lengthen a newest-first walk |
| Keyset.QuietWalk | internal/modules/post/store.go:290-363 | on an unchanged list the pages concatenate to exactly the sorted rest of the list, from any start and in both directions |
| Keyset.CursorRoundTrip | internal/platform/query/page.go:75-101 | a cursor decodes to the row it was made from, unless that row's id or time is the zero value, which is refused |
| PostList.List | internal/modules/post/store.go:264-366 | the public list: deleted and hidden posts out, search, tags and author as asked, then the page by cursor, or in the order of the column asked for |
| PostList.Conditions | internal/modules/post/store.go:268-288 | the conditions gathered step by step mean exactly the filter |
| UserList.Conditions | internal/modules/user/store.go:345-400 | the same for users |
| PostList.PublicWalk | internal/modules/post/store.go:264-366 | posts written, hidden and deleted during a walk: one that stayed public and kept matching is returned exactly once, one that never matched never |
| UserList.List | internal/modules/user/store.go:345-450 | the user list: joined with roles, search, role and activity as asked, a null activity reading as false, then the page by cursor, or in the order of the column asked for |
| PostLog.Module.Create | internal/modules/post/events.go:14-34 | row and `created` event together |
| PostLog.CreateAnswers | internal/modules/post/events.go:14-34 | a new post is live at version 1 and announced as such |
| PostLog.Module.Update | internal/modules/post/events.go:36-69 | compare and set on the version; a visibility change, else an update, else no event, in the same transaction |
| PostLog.UpdateAnswers | internal/modules/post/events.go:36-69 | by columns: refused exactly when gone or of another version; else each field the given or the read one, and one event: the new visibility, or the fields given, or none if none was |
| PostLog.Module.UpdateRow | internal/modules/post/store.go:173-225 | the statement succeeds exactly on a live row of the version read, and then replaces all its columns |
| PostLog.Module.Delete | internal/modules/post/events.go:71-88 | a live row is marked, the version is not moved, and the event carries the version read |
| PostLog.DeleteAnswers | internal/modules/post/events.go:71-88 | refused exactly when gone; else only the mark changes, and the event carries the version read |
| PostLog.HistoryMeaning | internal/modules/post/events.go:14-88 | what a well-formed history says about any two of its events |
| PostRuns.LogFoldsToTable | internal/modules/post/events.go:14-88 | in every state of every run a post's events fold to its row's visibility and deletion |
| PostRuns.HistoriesAreOrderly | internal/modules/post/events.go:36-88 | created first, deleted last and once, other versions strictly rising, previous visibility equal to the fold before it |
| PostRuns.NoLostUpdate | internal/modules/post/store.go:173-225 | an update succeeds exactly on the version it read, and then keeps what the last writer put into the columns it leaves out |
| PostRuns.ConsumerAgreesIff | internal/platform/inbox/store.go:66-84 | a consumer fed a post's events in order agrees with their fold exactly when the deletion's version is not older than the last other event's; its visibility agrees always |
| PostRuns.ProjectionAgreesIff | internal/modules/post/store.go:235-262 | the same against the table, over all runs |
| PostRuns.StaleDelete | internal/modules/post/events.go:71-88 | a run with two requests in which the consumer keeps a deleted post |

## Left out

- Keyset.Page: the default sort literal of the post list (`internal/modules/post/query.go:37`) contains a tab, so a list without `sort_by` sends an unknown column; an explicit column is modelled. Text order is a rank the database assigns.
- Keyset.WalkNeverRepeats: a walk starts from a given cursor, because an offset page never returns one: a client that was not given a cursor cannot start a walk.
- Fanout.FanOutOnce: calls must share a channel pairwise; without one both can create (`Fanout.BothCreateIff`).
- DeliveryRuns.OneHolder: needs every update to arrive inside its lease, which the timeouts guarantee for batches of two rows (`DeliveryQueue.RowsPerLease`); larger batches can overrun it, and then a sent row can be sent again (`PollRuns.PollsAbsorbIff`). An update that the server carries out after its client has given up is not bounded by the timeout.
- SlidingWindow.ExpiryChangesNothing: one rule per client and one clock that never goes back; keys leave only by expiry, not by memory pressure; Lua's doubles are exact rationals.
- Inbox.Store.Process: one atomic step. Under READ COMMITTED `rejectStale` locks nothing while a subject has no watermark row, so concurrent first events of a subject may run out of order.
- Lineage.BoundedRetries: consumer settings and subscriptions do not change during a run, consumer names contain no dot, all records of the topics come from this pipeline, and rows carry no header named like a failure header (the modules only write `correlation-id` and `traceparent`).
- Relay.RetryDelayBaseIff: the float conversion beyond 64 bits is the one of amd64; the Go language leaves it open.
- Sessions.ReuseDetectedIff: the documentation says reuse of a revoked refresh token ends all sessions; in the code the blocklist and the version check answer first, and the model follows the code.
- Sessions.Auth.HandleLogin: an insert or a signature that fails, and a failing read in any handler, only end the call; over runs that is the step `Drop` of `SessionRuns`.
- PostRuns.ProjectionAgreesIff: events of one post delivered in commit order. The relay gives no order between rows of one post (a failed row waits, `UPDATE … RETURNING` is unordered), and none is claimed.
- Kafka, PostgreSQL and Redis are sequences, maps and atomic steps; `FOR UPDATE SKIP LOCKED` is a choice of rows no other transaction holds.
- Events are values: JSON, base64, JWT signing, bcrypt and JSON Schema are taken as exact; header times are written in decimal; header names are a datatype.
- Agreement.CopiesBoundedByAttempts: one produce call appends its record at most once, now or later, as an idempotent producer does.
- UUIDs and refresh-token ids are fresh by assumption; `refid` collisions inside a transaction are not retried.
- Attempt numbers on headers wrap at 64 bits; row versions and attempt columns are unbounded.
- `waitUntilReady` is an input of the consumer loop that may end it; its timing is not modelled.
- Blocklist entries may expire at any time in `SessionRuns`; the time itself is not modelled.
- Gate, templates, preferences, in-app formatting and the audit trail of notifications.
- `Outbox.Backlog`, metrics, logging, configuration, CORS, HTTP parsing and responses, swagger and deployment.
- `Retry-After`: the next bucket can still refuse, so no property is claimed.
- Token expiry and the development token: the first only adds to the modelled checks, the second bypasses them. Every token carries `ver`, as all tokens signed here do.
- Role checks, activation and the rest of the user module's writes, apart from the version bumps.

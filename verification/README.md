# Verification of the feed pipeline

The repository parses feeds in two services. A Rails application publishes a command to RabbitMQ; a Go
service consumes it, fetches and parses the feeds behind a URL cache, records the job and publishes a
result; the Rails application takes the result, stores the items and tells the browser. A REST endpoint of
the Go service does the same synchronously when the queue is not available. This project models the
stateful parts of that pipeline in Dafny and proves what they keep over every input, every run and every
interleaving. `dafny verify dfyconfig.toml` checks all of it.

| module | what it models |
|---|---|
| `Recovery` | the self-healing AMQP client: its mutex-guarded object, and the interleavings of boot, disconnect handlers and recovery loop |
| `Topology` | the declared exchanges, queues and bindings, and routing through them |
| `RetryCount`, `Consumer`, `CommandQueue`, `Sweep` | counting retries, one delivery, all deliveries with expiry, faults and connection losses, and the sweep of the failed queue |
| `Dates`, `FeedItems` | dates, deduplication and sorting |
| `ParseSchedule`, `Reader` | the goroutines of `Parse` and what it returns |
| `JobStore`, `UrlCache` | the two job stores and the URL cache |
| `Pipeline`, `Processor`, `ParseHandler`, `Twins`, `CacheSoundness`, `CacheRuns` | what a batch means, its two implementations, their agreement, what cache entries say, and interleaved batches over whole runs |
| `ResultStatus`, `ResultJob`, `PublishJob`, `Persistence`, `StoreRuns` | the compare-and-swap on the request status, one delivery of a result, the publisher with its fallback, the tables, and results stored at once |
| `EndToEnd` | the two services together |
| `Base`, `Sequences` | shared values and facts about sequences |

Objects that the source updates in place are classes, and their methods are proved against functions on
values; the protocols are state machines whose steps are single critical sections, statements or broker
actions, built from the same functions.

What the broker does is stated as step rules: a direct exchange delivers by exact routing key (section
3.1.3.1 of AMQP 0-9-1), and RabbitMQ's nack, dead-lettering, message time to live and x-death bookkeeping
are the definitions in `CommandQueue` and `RetryCount`. A successful publication is taken to be enqueued,
and a lost connection returns the unacknowledged deliveries with their headers unchanged.

## What the proofs show about the code

- Recovery does not always succeed. A failing reconnect callback closes the client for good
  (rss_backend/rssservice/internal/rabbitmq/client.go:128-133), and a drop of the new connection at any moment before
  the last reply to its declarations makes the callback fail (`Recovery.DropBeforeDeclarationIsFatal`, with
  `Recovery.FlapDuringCallbackIsFatal` as a concrete run). `Recovery.RecoverableExactly` and
  `Recovery.ReadyExactly` bound what is possible, `Recovery.CalmRunsGetReady` and `Recovery.RecoversExactly` say when
  recovery does succeed. At boot the same drop ends the process once the channel has been read
  (rss_backend/rssservice/cmd/rssservice/main.go:106-109).
- The design document promises at most three retries through the wait queue (ARCHITECTURE.md:65) and a final failure
  after three attempts (ARCHITECTURE.md:79). In the code a handler failure is nacked at most three times; a third failure still
  passes through the wait queue, and the fourth delivery is parked without running the handler
  (rss_backend/rssservice/internal/rabbitmq/consumer.go:90). The model follows the code.
- The comment on the result job's `:reject` says that the message is requeued
  (rss_frontend/app/jobs/process_feed_result_job.rb:69); rejecting drops it, and in any case the status guard would
  acknowledge a second copy. A winner that raises leaves a finished request whose items are never stored.
- Two results that share a feed URL which is new can clash: the validation of the second feed finds the first, the job
  raises after its status was committed, and its items are lost (`StoreRuns.RaisesExactly`).
- The publisher's status write after publishing can open a finished request again, so two deliveries can win
  (`ResultStatus.AtMostTwoWinners` and its witness).
- The endpoint is started with `isFallback` false
  (rss_backend/rssservice/cmd/rssservice/main.go:149), so while the service can queue it answers the publisher's
  fallback with 202, which the fallback treats as a failure (`EndToEnd.QueuedFallbackFails`).
- Deduplication is across the feeds of a batch, so a cache entry can be strictly smaller than what its feed alone
  would give (`CacheSoundness.EntryCanBeStrict`), exactly when another URL of the batch gives one of its links
  (`CacheSoundness.CompleteExactly`).
- The two job stores differ on updates of unknown ids (`JobStore.RunBoth`).
- The reader keeps all items without a link; the service sends their links as empty strings, and the unique index then
  keeps one of them per feed (`EndToEnd.LinklessItemsCollapse`, `EndToEnd.LinklessItemsKeptExactly`).

## Model

| member | source | states |
|---|---|---|
| `Recovery.Client.constructor` | rss_backend/rssservice/internal/rabbitmq/client.go:27-34 | a new client has no connection, no channel and an empty signal buffer |
| `Recovery.Client.Connect` | rss_backend/rssservice/internal/rabbitmq/client.go:36-67 | succeeds exactly when the client is not closed and the broker opens connection, channel and QoS; stores the new session then, and changes nothing otherwise |
| `Recovery.Client.ClearAfterDisconnect` | rss_backend/rssservice/internal/rabbitmq/client.go:84-97 | the handler's critical section: on an open client both fields are cleared, whatever session they hold is closed, and a signal follows; on a closed client nothing happens |
| `Recovery.Client.TriggerRecovery` | rss_backend/rssservice/internal/rabbitmq/client.go:149-154 | afterwards the one-place buffer is full; a full buffer swallows the signal |
| `Recovery.Client.Channel` | rss_backend/rssservice/internal/rabbitmq/client.go:156-164 | gives the channel exactly when there is one |
| `Recovery.Client.Close` | rss_backend/rssservice/internal/rabbitmq/client.go:166-183 | closes what is open, clears both fields and marks the client closed for good |
| `Recovery.DelayStep` | rss_backend/rssservice/internal/rabbitmq/client.go:185-190 | doubling and capping the current delay is capping the next power of two |
| `Recovery.OneSession` | rss_backend/rssservice/internal/rabbitmq/client.go:36-67 | in every reachable interleaving at most one session is open, it is the one in the fields, and a successful dial finds none: no dial overwrites or leaks a live connection |
| `Recovery.SingleToken` | rss_backend/rssservice/internal/rabbitmq/client.go:69-146 | while the client is open: with a channel there is exactly its own handler and nobody owes a dial; without one no handler is live and exactly one party owes it (boot, a handler before its signal, the buffer, or the loop); only a cancelled loop can lose it |
| `Recovery.NoLostSignal` | rss_backend/rssservice/internal/rabbitmq/client.go:99-102 | a signal sent while the client is open always finds the buffer empty, so no wakeup is lost |
| `Recovery.HandlerClearsItsOwn` | rss_backend/rssservice/internal/rabbitmq/client.go:69-103 | a handler that clears the fields clears the session it watches, never a newer one |
| `Recovery.BackoffBounds` | rss_backend/rssservice/internal/rabbitmq/client.go:105-146 | the delay is min(2^k, 60) after k failed rounds since the last dial, between 1 and 60, one whenever the loop waits for a signal, and n failed rounds sleep between n and 60 n seconds in all |
| `Recovery.SleepsExactly` | rss_backend/rssservice/internal/rabbitmq/client.go:107-145 | the seconds a run has slept, from the outcomes of its rounds alone; the delays are 1, 2, 4, 8, 16, 32 and then always 60 seconds, from one again after a dial that succeeds |
| `Recovery.Take` | rss_backend/rssservice/internal/rabbitmq/client.go:36-183 | one step of the protocol taken on the object through its methods leaves the fields of the machine's next state, and what the step finds out and closes is what the machine goes on with |
| `Recovery.Follow` | rss_backend/rssservice/internal/rabbitmq/client.go:36-183 | every run of the protocol is a run of the object's methods: a new client driven through it ends with the fields of the run's final state |
| `Recovery.WayBack` | rss_backend/rssservice/internal/rabbitmq/client.go:105-146 | from every state that satisfies the invariant and is not hopeless, some run leads to a live session with its topology declared and the loop waiting |
| `Recovery.RecoverableExactly` | rss_backend/rssservice/internal/rabbitmq/client.go:105-146 | what is possible: a session open at the broker is there or can be had again exactly when the process is not doomed: not live, and closed, exited, with its loop stopped, or between a dial and the end of the declarations that follow it |
| `Recovery.ReadyExactly` | rss_backend/rssservice/internal/rabbitmq/client.go:105-146 | what is possible: a live session with its topology declared and the loop waiting is there or can be had exactly when the client is not closed, exited, stopped or about to close, and no declaration is under way on a lost session |
| `Recovery.CalmRunsGetReady` | rss_backend/rssservice/internal/rabbitmq/client.go:105-146 | recovery does succeed: from a coming state (not hopeless, and boot not about to declare on a session that is lost but not cleared) every run without drops, refusals and cancellation has at most the state's remaining distance of steps, stays coming, and has no step left exactly when the service is ready |
| `Recovery.RecoversExactly` | rss_backend/rssservice/cmd/rssservice/main.go:94-125 | every run without further faults keeps the possibility of getting ready if and only if the state is coming; otherwise such a run leads to a state from which no run at all makes the service ready |
| `Recovery.DropAtBootRaces` | rss_backend/rssservice/cmd/rssservice/main.go:104-109 | a reachable state that can get ready and still need not: the session drops before boot reads its channel |
| `Recovery.DropBeforeDeclarationIsFatal` | rss_backend/rssservice/internal/rabbitmq/client.go:127-133 | after a drop at any moment before the last declaration reply, however the run goes on, the loop leaves the callback only by closing the client for good |
| `Recovery.ClosedIsFinal` | rss_backend/rssservice/internal/rabbitmq/client.go:39-42 | after closing, no run has a channel, an open session or a new dial again, and no handler signals any more; the loop goes on dialling in vain and sleeping, and stops only if it is cancelled |
| `Recovery.OnlyCancelStops` | rss_backend/rssservice/internal/rabbitmq/client.go:105-146 | along any run the loop is stopped exactly if its context was cancelled; it never stops by itself, not even after closing the client |
| `Recovery.SleepIsWhole` | rss_backend/rssservice/internal/rabbitmq/client.go:130-142 | nothing cuts a sleep between two rounds short, not even cancellation |
| `Recovery.FlapDuringCallbackIsFatal` | rss_backend/rssservice/cmd/rssservice/main.go:118-124 | a run in which every dial succeeds and no declaration fails, and the client still ends closed: the connection drops again just before the reconnect callback asks for the channel |
| `Topology.DeclareTopology` | rss_backend/rssservice/internal/rabbitmq/client.go:192-318 | which declaration is refused, if any, and with which message, from what the broker holds: an exchange of no name or another kind, a queue with other arguments, or a queue name used twice; a refusal leaves exactly the declarations before it, success precisely the declared exchanges, queues and bindings added |
| `Topology.AcceptableExactly` | rss_backend/rssservice/internal/rabbitmq/client.go:192-318 | the broker accepts every declaration of the plan, each after those before it, exactly if the configuration is acceptable, and the whole plan gives what is declared |
| `Topology.DeclaringOnlyAdds` | rss_backend/rssservice/internal/rabbitmq/client.go:192-318 | whatever part of the plan was accepted, exchanges, bindings and queue arguments that were there before still are |
| `Topology.DeclaredByName` | rss_backend/rssservice/internal/rabbitmq/client.go:192-318 | an accepted declaration, name by name: the worker queue dead-letters to the retry exchange, the wait queue after 30000 milliseconds to the commands exchange, the failed and results queues have no arguments, three bindings, and nothing else changes |
| `Topology.RedeclareIsIdle` | rss_backend/rssservice/internal/rabbitmq/client.go:105-146 | declaring again after a reconnection is accepted and changes nothing |
| `Topology.RetryCycleExactly` | rss_backend/rssservice/internal/rabbitmq/client.go:192-318 | every hop of the retry cycle reaches exactly its intended queue if and only if commands and retry exchange differ and the results exchange does not reuse the commands key on one of them |
| `Topology.ShippedIsSound` | rss_backend/rssservice/config.yaml:13-27 | the shipped names, hop by hop: commands reach the worker queue, rejected ones wait 30 seconds and return, the failed and results queues get only what is meant for them |
| `RetryCount.GetRetryCount` | rss_backend/rssservice/internal/rabbitmq/consumer.go:132-165 | no entry of the x-death header gives a larger integer count, and some entry gives this one if it is not zero, whatever shape the headers have |
| `RetryCount.RetryCountIsUnique` | rss_backend/rssservice/internal/rabbitmq/consumer.go:145-164 | that description determines the count |
| `RetryCount.MaxCountIs` | rss_backend/rssservice/internal/rabbitmq/consumer.go:132-165 | on a broker's history the count is the largest of its entries |
| `Consumer.ProcessDelivery` | rss_backend/rssservice/internal/rabbitmq/consumer.go:77-130 | for any headers: the handler runs exactly on readable commands none of whose x-death counts is three or more; unreadable deliveries are acked, used-up ones are copied to the failed queue with their reason and acked, or requeued if that is refused, the others are acked or dead-lettered by the handler's answer; a settlement that does not reach the broker leaves the delivery unsettled |
| `Consumer.VerdictOnHistory` | rss_backend/rssservice/internal/rabbitmq/consumer.go:86-90 | on the headers of a dead-letter history the verdict is that of the queue machine |
| `Consumer.ThreeRetriesAreEnough` | rss_backend/rssservice/internal/rabbitmq/consumer.go:86-115 | a readable command that was rejected and expired n times is handled if n is below three and parked otherwise |
| `Consumer.DeliveryIsARun` | rss_backend/rssservice/internal/rabbitmq/consumer.go:77-130 | a delivery processed whole is a run of the queue machine that ends with the command where its settlement says |
| `Consumer.UnsettledDeliveryIsARun` | rss_backend/rssservice/internal/rabbitmq/consumer.go:99-129 | a delivery whose settlement does not reach the broker is a run that ends with it still unacknowledged |
| `CommandQueue.RoutingImplementsCycle` | rss_backend/rssservice/internal/rabbitmq/client.go:230-293 | in a sound configuration publishing, dead-lettering, expiry and parking through the declared exchanges do exactly the designed cycle: worker queue, wait queue, worker queue, failed queue |
| `CommandQueue.RetriesAgreeWithHistory` | rss_backend/rssservice/internal/rabbitmq/consumer.go:86-125 | in every run, for a command in the worker queue or in delivery: rejections = expiries = what the consumer counts = nacked handler failures, at most three; in the wait queue one more rejection than expiries; a handler only starts below three, also across connection losses and requeues |
| `CommandQueue.OutcomesAgreeWithHistory` | rss_backend/rssservice/internal/rabbitmq/consumer.go:77-130 | in every reachable state: parked commands and their copies failed exactly three times, acknowledged ones fewer than three times, and discarded ones cannot be read |
| `CommandQueue.DecisionExactly` | rss_backend/rssservice/internal/rabbitmq/consumer.go:79-117 | in every reachable state the decision on a fresh delivery: discard if it cannot be read, park if it failed three times, otherwise handle; no command has failed more often |
| `CommandQueue.NoCommandLost` | rss_backend/rssservice/internal/rabbitmq/consumer.go:79-130 | in every reachable state a published command is in exactly one place: worker queue, delivery, wait queue, or settled in one of three ways; copies that reached the failed queue are one per parking plus exactly one per connection loss between parking and ack |
| `CommandQueue.NothingVanishesBeforeSweep` | rss_backend/rssservice/internal/rabbitmq/consumer.go:79-130 | before a sweep, a readable command whose handler never succeeded still has a copy in some queue or in delivery |
| `CommandQueue.RetriesTerminate` | rss_backend/rssservice/internal/rabbitmq/consumer.go:90-130 | a run without new commands has at most 21 steps for each command in play, one for each copy in the failed queue, and (4 commands + 1) for each fault, so with finitely many faults every command ends |
| `CommandQueue.NeverStuck` | rss_backend/rssservice/internal/rabbitmq/consumer.go:77-130 | while a command is unsettled some step that is no fault can be taken |
| `CommandQueue.AllSettledAtTheEnd` | rss_backend/rssservice/internal/rabbitmq/consumer.go:77-130 | when nothing is in play every command was acked after success, discarded as unreadable, or parked, exactly one of the three |
| `CommandQueue.AtRestExactly` | rss_backend/rssservice/internal/rabbitmq/consumer.go:77-130 | nothing but new commands, faults and sweeps can happen exactly when nothing is queued, in delivery or waiting |
| `CommandQueue.EveryCommandIsSettled` | rss_backend/rssservice/internal/rabbitmq/consumer.go:77-130 | from any reachable state a run without new commands is bounded by its work and faults, and once it has come to rest every command is settled in exactly one of the three ways |
| `Sweep.SweepFailedQueue` | rss_backend/rssservice/internal/worker/worker.go:87-136 | takes messages from the front until the queue is empty, a get fails or the context is cancelled, and none without a channel; counts each taken message under one trend; reports unless cancelled or without a channel |
| `Sweep.TrendCounts` | rss_backend/rssservice/internal/worker/worker.go:117-131 | each trend is counted once for every message with that error text, malformed_json for every message that cannot be read and unknown_error for every other one without such a text |
| `Dates.CalendarOrder` | rss_backend/rss_reader/date.go:42-54 | on calendar dates Before and After are the lexicographic order of year, month and day, and Equal is exactly neither |
| `Dates.ValidExactly` | rss_backend/rss_reader/date.go:27-29 | the months have 31, 30, 28 or 29 days as in the Gregorian calendar, with its leap years |
| `Dates.MonthsFollow` | rss_backend/rss_reader/date.go:27-29 | the month after one of the year's own begins where that one ends |
| `Dates.MonthsMakeYears` | rss_backend/rss_reader/date.go:27-29 | months outside the year carry into it |
| `Dates.DaysRunOn` | rss_backend/rss_reader/date.go:27-29 | days outside the month run on |
| `Dates.CalendarRepeats` | rss_backend/rss_reader/date.go:27-29 | 400 years are 146097 days |
| `Dates.NormalisedDatesCollide` | rss_backend/rss_reader/date.go:27-29 | outside the calendar they part: 30 February and 2 March fall on one midnight but are not equal |
| `Dates.EqualIsNeitherExactly` | rss_backend/rss_reader/date.go:42-54 | a date's equality with calendar dates is being neither before nor after them if and only if it is itself a calendar date |
| `Dates.SomeDateAt` | rss_backend/rss_reader/date.go:27-29 | every midnight is that of a calendar date |
| `Dates.StringOrder` | rss_backend/rss_reader/date.go:32-34 | for years 0 to 9999 the text has ten characters, is injective, and sorts like the date |
| `Dates.TextReadsBack` | rss_backend/rss_reader/date.go:32-34 | for years 0 to 9999 the ten characters read back as the date: four, two and two decimal digits with hyphens between them |
| `Dates.TextInParts` | rss_backend/rss_reader/date.go:32-34 | the text of any date, also of a negative or longer year, is three decimal numerals, zero-padded to four, two and two places, that read back as its parts |
| `Dates.PadIsShort` | rss_backend/rss_reader/date.go:32-34 | numerals are padded to the width and no longer than they need to be |
| `Dates.TextOrderIsTimeOrder` | rss_backend/rss_reader/date.go:32-44 | so text order is time order (RFC 3339, sections 5.1 and 5.6) |
| `FeedItems.Deduplicate` | rss_backend/rss_reader/options.go:40-56 | the loop computes `Dedup`: linkless items and first occurrences of a link |
| `FeedItems.DedupKeeps` | rss_backend/rss_reader/options.go:40-56 | every link and, in order, every linkless item survives; the length is their number |
| `FeedItems.DedupIsDistinct` | rss_backend/rss_reader/options.go:40-56 | no link survives twice and what survives is a subsequence |
| `FeedItems.DedupMembers` | rss_backend/rss_reader/options.go:40-56 | exactly the linkless items and the first item of each link survive |
| `FeedItems.DedupByPosition` | rss_backend/rss_reader/options.go:40-56 | item by item, in place: an item survives unless it has a link that an earlier item has too |
| `FeedItems.DedupIsIdempotent` | rss_backend/rss_reader/options.go:40-56 | deduplicating again changes nothing |
| `FeedItems.LessIsStrictWeakOrder` | rss_backend/rss_reader/options.go:61-70 | the comparator is irreflexive, asymmetric, transitive, and so is its incomparability |
| `FeedItems.SortItems` | rss_backend/rss_reader/options.go:60-71 | the array ends as an ordered permutation of what it held |
| `FeedItems.SortSlice` | rss_backend/rss_reader/options.go:60-71 | what the library's sort gives for any comparator that is a strict weak order |
| `FeedItems.SortExists` | rss_backend/rss_reader/options.go:60-71 | every batch has an ordered permutation |
| `FeedItems.OrderedIsNewestFirst` | rss_backend/rss_reader/options.go:61-70 | ordered means newest first and undated items last, in both directions |
| `FeedItems.OrderedByCalendar` | rss_backend/rss_reader/options.go:61-70 | for calendar dates and missing ones: no item comes after one of an earlier day, and no dated item after an undated one, in both directions |
| `FeedItems.SortedDatesAreUnique` | rss_backend/rss_reader/options.go:60-71 | any two ordered permutations of one batch carry the same dates in the same places |
| `ParseSchedule.ScheduleIsSafe` | rss_backend/rss_reader/rssreader.go:54-87 | in every reachable schedule at most `limit` goroutines hold a slot, results sent plus goroutines that still owe one are the batch size, no send blocks or finds the channel closed, and no slot or wait-group count is returned twice |
| `ParseSchedule.AlwaysProgress` | rss_backend/rss_reader/rssreader.go:54-98 | with a positive limit some goroutine can move until everything is collected, cancelled or not |
| `ParseSchedule.ProgressExactly` | rss_backend/rss_reader/rssreader.go:54-98 | a non-empty batch always makes progress if and only if the limit is positive |
| `ParseSchedule.EveryScheduleEnds` | rss_backend/rss_reader/rssreader.go:54-98 | a schedule of n URLs has at most 7 n + 2 steps |
| `ParseSchedule.CollectsEveryResultOnce` | rss_backend/rss_reader/rssreader.go:83-98 | when the loop ends it has received every goroutine's result exactly once |
| `ParseSchedule.FetchedOrGaveUp` | rss_backend/rss_reader/rssreader.go:54-98 | in a finished run every goroutine either fetched or, only if the context was cancelled, gave up, never both; results are collected in the order they were sent, and only once all goroutines are spawned |
| `ParseSchedule.EveryOrderHappens` | rss_backend/rss_reader/rssreader.go:54-98 | with a positive limit every order of the goroutines is the order of collection of some finished schedule |
| `Reader.New` | rss_backend/rss_reader/rssreader.go:32-41 | each limit is that of the last option that gives a positive one; without any, ten fetches at once and ten megabytes |
| `Reader.ByURL` | rss_backend/rss_reader/errors.go:77-83 | one non-empty group for each URL that failed, holding its errors in order |
| `Reader.ErrorsForByPosition` | rss_backend/rss_reader/errors.go:77-83 | a URL's group is its errors, each in its place |
| `Reader.Collect` | rss_backend/rss_reader/rssreader.go:89-103 | the items are an ordered permutation of the deduplicated items received, the error is absent exactly when no URL failed and otherwise lists the failures in order of arrival |
| `Reader.CollectedByPosition` | rss_backend/rss_reader/rssreader.go:89-98 | result by result, in place: a fetched result gives its items and no error, a failed one its error under its own URL and no item |
| `Reader.ReceivesAll` | rss_backend/rss_reader/rssreader.go:54-98 | a complete schedule receives the outcome of every occurrence exactly once |
| `Reader.ReceivedByPosition` | rss_backend/rss_reader/rssreader.go:67-81 | what is received at each position is the outcome of fetching the sender's own URL, or a cancellation error for it if the sender gave up |
| `Reader.OrderDoesNotMatter` | rss_backend/rss_reader/rssreader.go:89-103 | results in another order give the same errors, as many items, the same links and the same linkless items |
| `Reader.ParseIsScheduleIndependent` | rss_backend/rss_reader/rssreader.go:49-104 | any two complete schedules of a batch, under any two limits, agree on errors (as a multiset), length, links and linkless items |
| `JobStore.Unmarshal` | rss_backend/rssservice/internal/jobstore/jobstore.go:121-131 | decoding builds new objects with the document's contents; empty lists come back absent |
| `JobStore.InMemoryJobStore.Create` | rss_backend/rssservice/internal/jobstore/jobstore.go:99-113 | files a private copy under the job's id |
| `JobStore.InMemoryJobStore.Get` | rss_backend/rssservice/internal/jobstore/jobstore.go:115-132 | answers a fresh copy of the document stored last, or not found |
| `JobStore.InMemoryJobStore.Update` | rss_backend/rssservice/internal/jobstore/jobstore.go:134-150 | replaces the document of a known id and never adds a key |
| `JobStore.RedisJobStore.Create` | rss_backend/rssservice/internal/jobstore/jobstore.go:56-62 | writes the document under the prefixed id if Redis answers |
| `JobStore.RedisJobStore.Get` | rss_backend/rssservice/internal/jobstore/jobstore.go:64-77 | answers the stored document of that id, or not found |
| `JobStore.RedisJobStore.Update` | rss_backend/rssservice/internal/jobstore/jobstore.go:79-85 | the same write as creation, also for an unknown id |
| `JobStore.CallersCannotReachIn` | rss_backend/rssservice/internal/jobstore/jobstore.go:99-132 | after a caller changes the job it stored and a job it got back in any way, the store still answers the document stored |
| `JobStore.RunInMemory` | rss_backend/rssservice/internal/jobstore/jobstore.go:93-150 | along any sequence of operations, with every job ever passed or got back changed in any way between any two of them, replies and contents are those of a map of documents |
| `JobStore.RunInRedis` | rss_backend/rssservice/internal/jobstore/jobstore.go:49-85 | the same for the Redis store: its replies and contents are those of its map, through the key prefix |
| `JobStore.RunBoth` | rss_backend/rssservice/internal/jobstore/jobstore.go:49-150 | from equal contents the two stores give equal replies to a sequence of operations if and only if every update follows a write of its id, and then they end with equal contents |
| `JobStore.StoresAgreeExactly` | rss_backend/rssservice/internal/jobstore/jobstore.go:49-150 | the same of the two maps of documents |
| `JobStore.ReadsGiveTheLastWrite` | rss_backend/rssservice/internal/jobstore/jobstore.go:49-150 | along any sequence of operations a read gives the document written last: creating always writes, an update in memory only what is there, in Redis always, and reading changes nothing |
| `UrlCache.URLCache.Get` | rss_backend/rssservice/internal/cache/urlcache.go:33-48 | answers the entry of that URL as the cache shows it; without a client, or if Redis does not answer this read, a miss |
| `UrlCache.URLCache.Set` | rss_backend/rssservice/internal/cache/urlcache.go:51-61 | replaces exactly that URL's entry if Redis takes this write; a cache without a client accepts the write and keeps nothing |
| `UrlCache.URLCache.Expire` | rss_backend/rssservice/internal/cache/urlcache.go:51-61 | an entry whose time to live has passed is gone, and no other |
| `Pipeline.HydratedAt` | rss_backend/rssservice/internal/worker/processor.go:112-136 | hydration gives every missed URL without an error, one of whose writes Redis takes, exactly its own parsed items, possibly none, and changes no other entry |
| `Pipeline.LookedAt` | rss_backend/rssservice/internal/worker/processor.go:64-74 | a read shows the entry of its URL if there is one and Redis answers that read |
| `Pipeline.VerdictByPosition` | rss_backend/rssservice/internal/worker/processor.go:58-160 | failed only without any item and with an error for each URL; otherwise the items are the cached ones, each hit where the earlier hits end, followed by those of the reader's answer to the misses, field by field |
| `Pipeline.ErrorsByPosition` | rss_backend/rssservice/internal/worker/processor.go:98-119 | the errors of a verdict, in order: those of the answer with their URL and text, or another error once for every miss |
| `Pipeline.CacheAfterByUrl` | rss_backend/rssservice/internal/worker/processor.go:82-137 | a missed URL without an error of its own, one of whose writes Redis takes, ends with the answer's items of that URL in order, field by field; every other entry is as before |
| `Processor.Process` | rss_backend/rssservice/internal/worker/processor.go:44-186 | job record, published message, cache and error of one call, for every answer of the store, the publisher and each single cache read and write, are those of `Judge` and `CacheAfter` |
| `Processor.SplitByCache` | rss_backend/rssservice/internal/worker/processor.go:64-74 | the cached items in order of the URLs, and the misses in order |
| `Processor.ConvertAndGroup` | rss_backend/rssservice/internal/worker/processor.go:82-96 | the grouping by URL partitions the converted items in order |
| `Processor.CollectErrors` | rss_backend/rssservice/internal/worker/processor.go:98-119 | one error per URL error in order, or the other error once for each miss |
| `Processor.Hydrate` | rss_backend/rssservice/internal/worker/processor.go:121-137 | the cache ends as `Hydrated` says, whichever writes Redis refuses |
| `ParseHandler.Parse` | rss_backend/rssservice/internal/server/handler/parse.go:43-194 | 400, 202 or the verdict, and store and cache afterwards, for every answer of store, queue and each single cache read and write; a store or a queue that refuses falls through to the synchronous answer |
| `ParseHandler.CheckCache` | rss_backend/rssservice/internal/server/handler/parse.go:83-96 | the endpoint's own split, also with no cache at all |
| `ParseHandler.ReportErrors` | rss_backend/rssservice/internal/server/handler/parse.go:117-136 | the endpoint's own error conversion reports the same errors |
| `ParseHandler.AppendItems` | rss_backend/rssservice/internal/server/handler/parse.go:104-115 | the endpoint's own grouping agrees with the worker's |
| `Twins.WorkerAndEndpointAgree` | rss_backend/rssservice/internal/server/handler/parse.go:78-188 | from equal stores, caches, URLs and reader the two implementations give the same status, items, errors, cache and job record |
| `Twins.AbsentCacheIsClientless` | rss_backend/rssservice/internal/cache/urlcache.go:33-61 | an endpoint without a cache answers like a worker whose cache has no client |
| `CacheSoundness.SchedulesAnswer` | rss_backend/rss_reader/rssreader.go:49-104 | every complete schedule of `Parse` meets the contract the pipeline relies on |
| `CacheSoundness.ReportedErrors` | rss_backend/rssservice/internal/worker/processor.go:98-119 | errors reported are as many as failed occurrences, and a URL counts as failed exactly when one of its occurrences failed |
| `CacheSoundness.StatusMeaning` | rss_backend/rssservice/internal/worker/processor.go:142-148 | a batch ends failed if and only if it is not empty, no read of the cache was a hit and every fetch failed; the test for empty items is implied |
| `CacheSoundness.Accounting` | rss_backend/rssservice/internal/worker/processor.go:63-140 | occurrences = cache hits + reported errors + successful fetches |
| `CacheSoundness.EntryIsWithinOwn` | rss_backend/rssservice/internal/worker/processor.go:121-137 | an entry holds only its URL's items, only those that the URL's own occurrences in the batch would give without the others, and all of those if no other URL shares one of their links; the occurrences may have fetched different feeds |
| `CacheSoundness.EntryIsWithinFeed` | rss_backend/rssservice/internal/worker/processor.go:121-137 | if they fetched one feed, the same of what that feed alone gives |
| `CacheSoundness.OwnSurvivesExactly` | rss_backend/rss_reader/options.go:40-56 | an item that survives among its URL's own survives the batch exactly if no other URL's item with its link came first |
| `CacheSoundness.EntryIsWithinSolo` | rss_backend/rssservice/internal/worker/processor.go:121-137 | at hydration the entry is contained in what parsing the URL's occurrences alone returns, and equal to it as a set if no link is shared |
| `CacheSoundness.EntryCanBeStrict` | rss_backend/rss_reader/rssreader.go:100-100 | with a shared link the entry of a one-item feed can be empty although fetching it alone returns the item |
| `CacheSoundness.CompleteExactly` | rss_backend/rss_reader/rssreader.go:49-104 | over all finished schedules of a batch and all results of sorting: a URL's entry is always all that its own occurrences give alone if and only if no other URL of the batch gives an item with one of their links |
| `CacheRuns.CacheIsSoundAlongRuns` | rss_backend/rssservice/internal/worker/processor.go:64-140 | with any number of batches reading and writing URL by URL, refused reads and writes and expiries at any moment: an entry was written by a batch that missed its URL, is about that URL, within what the URL's occurrences alone gave in that batch, and all of that if no link was shared there |
| `CacheRuns.ExpiredIsAMiss` | rss_backend/rssservice/internal/cache/urlcache.go:29-49 | an expired entry is a miss for the next read of its URL, and other entries are not touched |
| `CacheRuns.FinishedBatches` | rss_backend/rssservice/internal/worker/processor.go:58-148 | a finished batch, however interleaved: its occurrences are hits, errors and successes, it failed exactly if there was no hit and every fetch failed, and what it was shown is of the URLs it asked for |
| `CacheRuns.UndisturbedBatch` | rss_backend/rssservice/internal/worker/processor.go:58-140 | a batch that runs alone is a run of that machine, with the verdict and the cache that `Process` and `Parse` are specified with |
| `ResultStatus.WinnersExactly` | rss_frontend/app/jobs/process_feed_result_job.rb:22-27 | over any interleaving of deliveries and the publisher: winners + publisher writes that closed the request + (1 if it is open) = 1 + publisher writes that opened it again + wins whose payload left it open, and there are none of the last with conclusive payloads; whoever broadcasts has persisted, whoever persists has won |
| `ResultStatus.AtMostTwoWinners` | rss_frontend/app/jobs/publish_feed_job.rb:7-12 | one run of the publisher opens a request again at most once, by marking it after a result was taken; without that at most one of all deliveries and the fallback concludes the request, with it at most two deliveries win |
| `ResultStatus.SavesOnlyNews` | rss_frontend/app/jobs/publish_feed_job.rb:12-38 | a save of the publisher changes a column only to a value that differs from the one it last loaded or saved, so it leaves alone what others wrote where it has no news |
| `ResultStatus.SameAnswerKeepsStatus` | rss_frontend/app/jobs/publish_feed_job.rb:38-38 | an answer that repeats the status does not open a request again that a delivery finished in between |
| `ResultStatus.MarkingLateAdmitsASecondWinner` | rss_frontend/app/jobs/publish_feed_job.rb:8-12 | such a run exists: two deliveries persist and broadcast |
| `ResultStatus.OpenPayloadsAdmitAnyNumber` | rss_frontend/app/jobs/process_feed_result_job.rb:25-27 | conclusive statuses are needed: with payloads that say processing, n deliveries win, for every n |
| `ResultStatus.TerminalAbsorbs` | rss_frontend/app/jobs/process_feed_result_job.rb:21-27 | while the publisher is quiet a done or failed request keeps its row, and nobody wins any more |
| `ResultStatus.GuardIsFinal` | rss_frontend/app/jobs/process_feed_result_job.rb:14-21 | a delivery that finds the request finished, or of another job, is acknowledged there and never wins, even if the publisher opens the request again right after |
| `ResultStatus.SwapExactly` | rss_frontend/app/jobs/process_feed_result_job.rb:22-27 | the compare-and-swap is won exactly if the row is of the delivery's job, pending or processing, and the payload names a status, which the row takes; a missing status rejects the message, anything else acknowledges it and leaves the row |
| `ResultStatus.CrashedIsRedelivered` | rss_frontend/app/jobs/process_feed_result_job.rb:8-8 | a process that dies loses no message: a copy of each crashed delivery follows it |
| `ResultStatus.NobodyRepairs` | rss_frontend/app/jobs/process_feed_result_job.rb:21-27 | what a winner abandoned stays lost however many copies of the result still arrive |
| `ResultStatus.WinnersStoredExactly` | rss_frontend/app/jobs/process_feed_result_job.rb:25-69 | once no winner is busy, every winner has stored its items if and only if none was interrupted between the swap and the end of the storing |
| `ResultStatus.DoneWithNothingStored` | rss_frontend/app/jobs/process_feed_result_job.rb:67-69 | a reachable state: status done, nothing stored |
| `ResultJob.FeedRequest.UpdateOpen` | rss_frontend/app/jobs/process_feed_result_job.rb:25-27 | the conditional update changes the row of an open request of this job, and says whether it did |
| `ResultJob.Work` | rss_frontend/app/jobs/process_feed_result_job.rb:11-70 | only a result for an open request of its job with a status changes anything; row, tables, channel and reply in every case |
| `ResultJob.DeliveredTwice` | rss_frontend/app/jobs/process_feed_result_job.rb:21-27 | a conclusive result delivered twice in full leaves the request, the tables and the channel as one accepted delivery does |
| `ResultJob.WorkIsARun` | rss_frontend/app/jobs/process_feed_result_job.rb:11-70 | what `Work` does whole is a run of the machine of interleaved deliveries, with the same row, reply and broadcast |
| `Persistence.Database.FindOrCreate` | rss_frontend/app/jobs/process_feed_result_job.rb:35-37 | finds the feed of the URL or creates it under the next number; raises exactly on a blank URL |
| `Persistence.Database.InsertRows` | rss_frontend/app/jobs/process_feed_result_job.rb:55-55 | inserts a group in order, skipping rows whose feed and link are taken, also within the group |
| `Persistence.Database.StoreGroup` | rss_frontend/app/jobs/process_feed_result_job.rb:33-56 | one group: feed, association, items |
| `Persistence.Database.Store` | rss_frontend/app/jobs/process_feed_result_job.rb:32-57 | the block as a whole, up to the group that raises |
| `Persistence.SourcesAreDistinct` | rss_frontend/app/jobs/process_feed_result_job.rb:33-33 | the grouping has each source URL of the result once, with a non-empty group |
| `Persistence.PersistKeepsRows` | rss_frontend/db/schema.rb:27-27 | whether it raises or not, the block keeps feed URLs, feed-and-link pairs and associations unique and alters no existing row |
| `Persistence.SucceedsExactly` | rss_frontend/app/jobs/process_feed_result_job.rb:35-37 | it raises if and only if an item's source URL is missing or consists of white space, and then leaves exactly the groups before that one |
| `Persistence.FirstWins` | rss_frontend/app/jobs/process_feed_result_job.rb:32-57 | under every URL and link: what was stored stays, otherwise the first item of the result with that key is stored, otherwise nothing |
| `Persistence.FirstWinsByField` | rss_frontend/app/jobs/process_feed_result_job.rb:40-55 | the same field by field: the first item of the result with the URL and link gives title, source, description and publication date, the latter from either of its two names |
| `Persistence.NewRowsAreItems` | rss_frontend/app/jobs/process_feed_result_job.rb:32-57 | every new row is an item of the result, field by field, under the feed of its source URL, in the order of the items of that URL and none twice; an item gets a row exactly if an item of its URL comes before every blank one, and it has no link, or nothing is stored under its URL and link and no earlier item has both |
| `Persistence.FeedsAfter` | rss_frontend/app/jobs/process_feed_result_job.rb:33-39 | feeds exist for exactly the URLs that had one or occur in the result, new ones titled by the source of their first item or else RSS Source, and the request gains exactly those feeds |
| `Persistence.StoringComposes` | rss_frontend/app/jobs/process_feed_result_job.rb:32-57 | two results stored one after the other leave under every key what their concatenation leaves |
| `Persistence.KeysIgnoreOrder` | rss_frontend/app/jobs/process_feed_result_job.rb:32-57 | which keys are stored depends neither on the order of two results nor on the order of items |
| `Persistence.StoringAgain` | rss_frontend/app/jobs/process_feed_result_job.rb:55-55 | storing a result again adds one row for each item without a link and nothing else, so it is idle if and only if every item has a link |
| `StoreRuns.RunsKeepRows` | rss_frontend/db/schema.rb:27-54 | any number of results stored at once, statement by statement: in every interleaving, also when stores raise anywhere, feed URLs, feed-and-link pairs and associations stay unique and no row is altered |
| `StoreRuns.NothingInvented` | rss_frontend/app/jobs/process_feed_result_job.rb:32-57 | in every interleaving what is stored under a URL and link was there before, or is an item that one of the results has under them |
| `StoreRuns.FinishedIsStored` | rss_frontend/app/jobs/process_feed_result_job.rb:32-57 | a store that finished has every key and association of its result in the tables, whatever the others did |
| `StoreRuns.KeysAreTheUnion` | rss_frontend/app/jobs/process_feed_result_job.rb:32-57 | when all results are stored, the stored keys are those that were there and those of the results |
| `StoreRuns.RaisesExactly` | rss_frontend/app/models/feed.rb:5-5 | some interleaving makes a store raise, although nothing else goes wrong, if and only if a URL is blank, or two results have a URL in common whose feed is new, or new to the request of both |
| `StoreRuns.CompatibleResultsAreStored` | rss_frontend/app/jobs/process_feed_result_job.rb:32-57 | without such a clash every interleaving that comes to its end has stored exactly the union |
| `StoreRuns.Solo` | rss_frontend/app/jobs/process_feed_result_job.rb:32-57 | a store that runs alone leaves after each group what the block as a whole is specified with |
| `PublishJob.Perform` | rss_frontend/app/jobs/publish_feed_job.rb:4-20 | marked as processing when publication and mark succeed, otherwise exactly the fallback's effect |
| `PublishJob.PerformIsARun` | rss_frontend/app/jobs/publish_feed_job.rb:4-91 | the publisher's work as a whole is one run of the machine that interleaves it with deliveries, with the same row and no delivery touched |
| `PublishJob.ExecuteFallback` | rss_frontend/app/jobs/publish_feed_job.rb:23-91 | row, tables and the one broadcast for every way the call can end: no answer, another code, an unreadable body, an unlisted status, a blank URL, success |
| `PublishJob.FallbackDiscardsLaterResults` | rss_frontend/app/jobs/publish_feed_job.rb:38-80 | after a fallback the queue's result changes neither tables nor channel, whether or not the command was published; an answer of 202 ends the request as failed |
| `PublishJob.MarkedRequestTakesOneResult` | rss_frontend/app/jobs/publish_feed_job.rb:7-12 | after marking, the first conclusive result is stored and broadcast and a second delivery changes nothing |
| `EndToEnd.AnswersConclude` | rss_backend/rssservice/internal/worker/processor.go:142-148 | the status of a verdict is never open, as the publisher and the result job rely on |
| `EndToEnd.WireKeepsAll` | rss_backend/rssservice/internal/jobstore/jobstore.go:15-40 | a message and its payload agree in id, status, every field of every item, and every error |
| `EndToEnd.RowsComeFromFeeds` | rss_frontend/app/jobs/process_feed_result_job.rb:32-57 | every row that a verdict adds is, field by field, a cached item of one of its URLs or an item the reader parsed, its date as text, under the feed of its URL |
| `EndToEnd.SentItemsAreStoredOnce` | rss_backend/rssservice/internal/jobstore/jobstore.go:15-22 | the service's items always carry a link, so storing them again changes nothing |
| `EndToEnd.VerdictIsStorable` | rss_backend/rss_reader/parse_rss.go:55-62 | with no blank URL requested, every item of a verdict comes from a requested URL, so storing it cannot raise |
| `EndToEnd.FinishedBatchIsStorable` | rss_backend/rssservice/internal/worker/processor.go:58-140 | the same for every finished batch of the interleaved machine, from its invariant alone |
| `EndToEnd.CommandRoundTrip` | rss_frontend/app/jobs/process_feed_result_job.rb:11-66 | worker, message, result job, and a second delivery: request, tables, channel, job record and cache end as the verdict says |
| `EndToEnd.QueuedFallbackFails` | rss_backend/rssservice/internal/server/handler/parse.go:58-76 | if the publisher falls back while the service can queue, the service answers 202, the request ends failed and the worker's result is thrown away |
| `EndToEnd.FallbackMatchesQueue` | rss_frontend/app/jobs/publish_feed_job.rb:38-78 | if the service answers by itself, the fallback leaves request, tables, channel and cache as the queue path does |
| `EndToEnd.LinklessItemsCollapse` | rss_frontend/app/jobs/process_feed_result_job.rb:55-55 | the reader keeps every item without a link, the tables keep one per feed: the one stored before, or the first |
| `EndToEnd.LinklessItemsKeptExactly` | rss_frontend/app/jobs/process_feed_result_job.rb:55-55 | each item without a link of a URL gets a row if and only if there is none, or only one and none was stored before |

## Left out

- SortItems: the library's sort is represented by what it promises, an ordered permutation, and insertion stands for its algorithm.
- GetRetryCount: counts are unbounded integers; the 64-bit width of the source cannot be reached by three retries.
- SweepFailedQueue: the map from trend to count is a multiset; logging is not modelled.
- CalendarOrder: years are unbounded, so the range limits of the standard library's time type do not show.
- Process: a batch that nobody else's cache writes interleave with; interleaved batches are `CacheRuns`, connected by `UndisturbedBatch`; log lines and durations are left out.
- Parse: the reader is a function of the missed URLs within one call; its concurrency is `ParseSchedule`, connected by `CacheSoundness.SchedulesAnswer`; cache writes of other batches are as for `Process`.
- Work: one delivery as a whole; interleaved deliveries are `ResultStatus`, connected by `WorkIsARun`.
- Perform: the publisher as a whole, on a request nobody else changes meanwhile; interleavings with deliveries are in `ResultStatus`, connected by `PerformIsARun`.
- AtMostTwoWinners: one execution of the publisher per request, as the controller enqueues it; executing the job again is not modelled.
- WinnersExactly: the conditional update touches one row, the request's; the index on the job id does not forbid a second request with the same id.
- RetriesTerminate: a refused publication to the failed queue is a fault, so a broker that always refuses it is outside the bound.
- CommandRoundTrip: the store and the publisher answer; their refusals are in `Process` and lead to the retries of `CommandQueue`.
- Store: one result at a time; results stored at once are `StoreRuns`, connected by `Solo`.
- RaisesExactly: finding or creating a feed is a query, a validation that queries again, and an insertion that finds the other row if the unique index refuses, as the framework does it; other reasons to raise are the `Raise` steps.
- FindOrCreate: a URL is blank if it consists of spaces, tabs and line ends; other Unicode white space is not distinguished.
- Set: the fingerprint is an injective digest given to the cache; MD5 collisions and the cache's time to live (except as an entry that disappears) are not modelled.
- Unmarshal: JSON text, its escapes and invalid UTF-8 are not modelled; a document is its fields.
- RecoversExactly: the broker accepts a dial and a declaration on a live session unless it refuses; how long either takes is not modelled.
- RunBoth: Redis answers every call and nothing expires; a call it does not answer changes nothing, as `RedisJobStore` states.
- ProcessDelivery: the JSON of the body is readable or not; a readable one always yields a job id and URLs.
- ClearAfterDisconnect: a handler that wakes after the client was closed does nothing further; errors of closing are ignored as in the source.
- Fetching over HTTP, XML and time-layout parsing: a URL yields items tagged with it, or an error.
- The AMQP, Redis and PostgreSQL drivers, connection pools and timeouts; time only appears as steps that may happen at any moment.
- The dirty tracking of the publisher's copy of the request is modelled for job and status only.
- Casting publish dates to the database's date type, and the timestamps of rows.
- The consume-and-restart loop of the worker appears only as connection losses.
- Authentication, configuration loading, routing, documentation handlers and logging: plumbing with easy properties.
- Controllers, channels and the React front end: user interface.
- Users, and requests of several jobs at once: the request table is the row under consideration.

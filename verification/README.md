# Knocker verification model

Knocker stores webhook requests in SQLite, puts one job per event on a Honker
queue in the same file, and has workers hand the events to the application's
handlers. An event's status is in one table, its job in another, and the claim
on that job in a worker's memory. The `mark_*` updates look at none of the
other two. This project models the tables, the operations on them and the
worker's protocol, and proves what holds of them in every interleaving.

## How it is laid out

* `Schema`, `Honker`, `Inbox`, `Retention`, `Worker`: rows and tables as values,
  and every operation as a function from the open transaction's contents to
  what it leaves there and what it returns. `Selection` is the ordered, limited
  `SELECT` of the prune queries.
* `Sqlite` (Database.dfy), `App` (Knocker.dfy): the same operations the way the
  code runs them, as methods that change the tables in place, with the loops
  over ids, and with the transaction's rollback. Each method is proved equal to
  its function, so that what is proved of the functions holds of the methods.
* `Protocol`: the state machine. Its state is the committed database, the
  clock, what each worker holds (its buffer of claimed jobs, and a failure it
  has yet to record), and a history for the proofs alone: every job ever
  enqueued, every attempt row a worker wrote, and the batches of writes that
  were committed. A step is one committed transaction, a claim, the end of a
  worker, the passing of time, or anything that another user of Honker's table
  may do. A run is any sequence of steps.
* `Invariant`, `Preservation`, `Steps`, `Growth`: the inductive invariant, one
  predicate per concern, the proof that every step keeps it, and what the
  history gains in a step.
* `Guarantees`, `Retries`, `Progress`, `Dedupe`, `RetentionLaws`: the main
  results.
* `Outcomes`: what each operation returns and leaves in the rows, told on the
  columns, so that the functions that choose keys, handlers and statuses are
  held to the code as well.
* `Claims`, `WriterPool` (Writer.dfy), `Text`, `Stripe`, `Twilio`, `Payloads`: the
  claim iterator and worker loop, the single writer connection, the
  Stripe-Signature header, Twilio's signed payload, and the readings of a job
  payload.

## What is assumed

* Honker, whose source is not part of this model, keeps the contract in
  `Honker`: job ids are never reused; a claim takes rows that are pending or
  whose lease has expired, raises their attempt number and sets worker and
  lease; `ack`, `retry` and `fail` take effect, and return true, only while that
  worker's claim has not expired; `retry` keeps the attempt number.
* There is one queue name and one `max_attempts`; worker ids are distinct;
  foreign keys are enabled; handlers write only to the application's own table;
  lifecycle changes go through the Python API.
* Other users of Honker's table do as they like with their own rows, and put no
  payload with an event id on Knocker's queue. The retention job is on a queue
  of its own.
* Time never goes back. Each statement of a transaction reads the clock, which
  may tick between any two of them; ack, retry and fail come last.
* A cancelled claim claims nothing: `claim_batch` is synchronous, and in the
  Python versions the project requires (3.12 on) a cancellation reaches the
  iterator at its wait and cannot be swallowed there.
* ROLLBACK succeeds.

## Where the code and what is said about it differ

* The doc string of `_event_id_from_payload_json` says that string event ids
  are not coerced; the code converts them with `int`, and fractions too.
  `Payloads.SearchesAgree` says exactly for which tables the Python and the Rust
  search find the same jobs.
* Ignoring an event does not stop a failure that a worker is about to record:
  `Guarantees.IgnoredStays` gives the exact condition and
  `Progress.IgnoreOvertaken` the runs in which it happens.
* One infinite event id on the queue, such as 1e400, makes the Python search
  raise, and so every replay_delivery, while the Rust search goes on:
  `Payloads.PythonFindsMore`, `Payloads.InfiniteIdsFail`.
* The two parsers of the Stripe header differ in three ways.
  `Stripe.PythonAgreesWithRust` gives the exact conditions. Python raises for
  any t that is no integer to it, Rust looks at the last one only
  (`Stripe.RustAcceptsMore`). Python's `strip` takes off U+001C to U+001F, which
  Rust's `trim` leaves (`Text.TrimsDiffer`), so that digests and timestamps can
  differ (`Stripe.SeparatorAfterDigest`, `Stripe.SeparatorAfterKey`). And `int`
  reads texts that Rust does not, and refuses some that it does, such as more
  than 4300 digits.
* The tolerance check subtracts in 64 bits. Built without overflow checks it
  wraps for timestamps more than 2^63 - 1 seconds ago, and one of exactly 2^63
  seconds ago is within every tolerance: `Stripe.ToleranceMeant` gives the
  exact condition, `Stripe.OverflowIsInTime` the input.

## Model

| member | source | states |
|---|---|---|
| Guarantees.WorkConservation | packages/knocker/python/knocker/_knocker.py:964-1068 | In every reachable state a received or failed event has exactly one live job, a handled or dead one none, an ignored one at most one, processing is never committed, and every Knocker job names an existing event. |
| Guarantees.FinalEventsStay | knocker-core/src/knocker_ops.rs:1872-1941 | A handled or dead event survives every step unchanged, a failure record of an expired or deleted claim and a duplicate ingest included, unless the step is a replay, requeue or replay_delivery of it, an ignore of a dead one, or a prune for which a handled one is eligible. |
| Guarantees.IgnoredStays | packages/knocker/python/knocker/_knocker.py:1050-1068 | Short of an operator or a prune, an ignored event changes if and only if a worker that failed on it records that failure while it still holds the claim. |
| Guarantees.IgnoreEffect | packages/knocker/python/knocker/_knocker.py:540-552 | Received, failed and dead events become ignored, with no error, the rest of the row as it was and one attempt row, and keep their job; ignoring any other event, an ignored one included, changes nothing. |
| Guarantees.WritesCommitTogether | packages/knocker/python/knocker/_knocker.py:1023-1036 | The application's table changes only by one handler's whole batch, in one transaction with one handled attempt row, the event's handled status and the removal of that job. |
| Guarantees.EffectsCommitOnce | packages/knocker/python/knocker/_knocker.py:1023-1036 | Over any run the application's table is the batches of the jobs that ended as handled, each once, in order, and an event has no more batches than jobs enqueued for it. |
| Retries.RetriesAreBounded | packages/knocker/python/knocker/_knocker.py:1040-1068 | As long as an event is not enqueued again, the attempts table gains at most max_attempts - 1 failed rows of it (none if max_attempts is below 1), and at most one handled or dead row. |
| Retries.RowsAreBounded | packages/knocker/python/knocker/_knocker.py:1040-1068 | The same for the rows of each enqueued job, over any run; and a live job has no handled or dead row. |
| Retries.AlwaysFailingDies | packages/knocker/python/knocker/_knocker.py:1031-1068 | In any reachable state and under any interleaving after it: once max_attempts failures of one enqueued job have been recorded under a standing claim, and nobody interferes with the event once it is handled or dead, the event is dead; more of them are never recorded. |
| Retries.LandingsAreFew | packages/knocker/python/knocker/_knocker.py:1050-1068 | Rows written for a job and failures of it still to be recorded in time never exceed max_attempts. |
| Guarantees.RecordsAreRows | knocker-core/src/knocker_ops.rs:1891-1941 | For as long as an event exists, its attempt rows other than ignored ones are exactly those the workers wrote, with the same outcomes. |
| Guarantees.CanonicalPayload | knocker-core/src/knocker_ops.rs:310-371 | In every reachable state each event has a lowest-id linked delivery whose request it stores and which was received no earlier, all its deliveries share its endpoint and key and a keyless event has one only, a delivery is unlinked if and only if its signature was invalid, and no two events share endpoint and key. |
| Guarantees.ReplayNeverDangles | packages/knocker/python/knocker/_knocker.py:584-630 | For every job ever enqueued, if its event still exists then its chosen delivery exists, is linked to it and has its endpoint. |
| Guarantees.DispatchNeverMisses | packages/knocker/python/knocker/_knocker.py:979-991 | No dispatch of a handle, however stale, raises one of the two delivery errors. |
| Guarantees.StatusTold | knocker-core/src/knocker_ops.rs:1891-1962 | A received event has no error, handled_at or attempts; any other has an attempt row newest by id with the event's status as its outcome and the same error, last_error is set exactly for failed and dead, handled_at exactly for handled and no later than that row's time. |
| Guarantees.AttemptCountTold | knocker-core/src/knocker_ops.rs:1872-1941 | attempt_count of a handled, failed or dead event is the number of the claim under which its newest row was written. |
| Guarantees.ReplaysStartOver | knocker-core/src/knocker_ops.rs:1964-2000 | A replay or replay_delivery succeeds for handled, failed, dead and ignored events and a requeue for failed, dead and ignored ones; then the event is as new, its only job is a fresh one, and the handler will be given the stored request or that of the chosen delivery; otherwise nothing changes. |
| Guarantees.RestartDisarmsHandles | knocker-core/src/knocker_ops.rs:2185-2205 | In every state after such a restart, however late, no handle a worker had for the event before it can ack, retry or fail. |
| Guarantees.RequestsNeverChange | knocker-core/src/knocker_ops.rs:1872-2053 | Only a prune or retention pass removes events, and no step, these included, rewrites the endpoint, request, key or time of arrival an event stores. |
| Guarantees.PruneSparesPendingWork | knocker-core/src/knocker_ops.rs:2320-2347 | In a reachable state a prune or retention pass removes only live jobs whose event was ignored; jobs with other payloads and jobs of other queues survive. |
| Guarantees.RetentionJobIsSteps | packages/knocker/python/knocker/_knocker.py:863-891 | The retention job's transaction, acknowledgement included, is a pass followed by the removal of its own row, or changes nothing. |
| Progress.AttemptsOnlyGrow | packages/knocker/python/knocker/queue.py:117-118 | Whatever the step, a live job's attempt number goes up by one if the step claims the job and stays the same otherwise. |
| Progress.AttemptsCountClaims | packages/knocker/python/knocker/queue.py:117-118 | Over any run that leaves a job queued its attempt number grows by exactly the number of its claims. |
| Retries.LastTryKills | packages/knocker/python/knocker/_knocker.py:1048-1068 | A failure recorded in time makes the event dead if the job has been claimed max_attempts times, and failed if not. |
| Progress.ClaimsBoundLife | packages/knocker/python/knocker/_knocker.py:1031-1068 | Under any interleaving: once a job has been claimed max_attempts times, even if leases expired or workers were lost, the first failure recorded in time leaves the event dead for as long as nobody interferes with it. |
| Progress.AlwaysThrowingDies | packages/knocker/python/knocker/_knocker.py:1040-1068 | The shortest such run, in which one worker claims, fails and records at once again and again: the event is dead, with that error and without a live job, after exactly the attempts it had left, each of which wrote one row. |
| Progress.RoundsLand | packages/knocker/python/knocker/_knocker.py:1040-1068 | Each of those attempts is a failure recorded under a standing claim, so Retries.AlwaysFailingDies covers the run. |
| Progress.PendingIsReady | packages/knocker/python/knocker/_knocker.py:893-957 | In a reachable state a pending event's unheld job and an idle worker meet the premises of that. |
| Progress.ReceivedIsReady | packages/knocker/python/knocker/_knocker.py:319-367 | There is such a state: after an accepted request of an enabled endpoint whose handler takes all of its events. |
| Progress.IgnoreOvertaken | packages/knocker/python/knocker/_knocker.py:540-552 | An ignore between a worker's rollback and its failure record is committed and then overwritten by failed or dead. |
| Steps.NextKeepsInv | knocker-core/src/lib.rs:16-95 | Every step keeps the whole invariant: ids fresh, one job in order per event, handles true to their claims, links, keys, attempt rows, records and committed writes. |
| Dedupe.IngestIsGroupBy | knocker-core/src/knocker_ops.rs:283-384 | Folding ingest over any requests gives one event and one pending job per first accepted request of its endpoint and key, in order; a receipt names its group's event and says duplicate exactly when another request came first; invalid requests get a delivery only, and unknown endpoints nothing. |
| Dedupe.LeadersCounted | knocker-core/src/knocker_ops.rs:302-305 | There are as many of those as distinct keys and keyless requests. |
| Dedupe.StoredKeysAreRequested | knocker-core/src/knocker_ops.rs:333-347 | The keys that the inbox stores are the keys of the accepted requests. |
| Dedupe.OrderIrrelevant | knocker-core/src/knocker_ops.rs:333-347 | Any reordering of the requests, each processed at whatever time its new place gives it, stores the same keys, with the same event ids, jobs, delivery ids and counts. |
| Steps.FoundEvent | knocker-core/src/knocker_ops.rs:1754-1775 | The lookup finds an event of the endpoint with the key if there is one, and nothing if there is none or no key. |
| Outcomes.SameEvent | knocker-core/src/knocker_ops.rs:305-348 | Two accepted requests in turn, at any times and on any tables with fresh ids, are one event if and only if they are for one endpoint and have one key: the explicit one, or else the provider event id, or else the provider delivery id; the second is then a duplicate. |
| Outcomes.EventIdsDecide | knocker-core/src/knocker_ops.rs:305-308 | Without explicit keys, two requests of one endpoint are one event if and only if their event ids are equal, whatever their delivery ids. |
| Outcomes.AcceptedRequest | knocker-core/src/knocker_ops.rs:305-384 | The key so chosen is on the stored rows; an accepted request is a duplicate if and only if some event of its endpoint has that key, and then adds its delivery alone; else it adds one received event, its delivery and its job, with these columns and nothing else. |
| Outcomes.RefusedRequest | knocker-core/src/knocker_ops.rs:299-331 | An unknown or disabled endpoint stores nothing and is an error; an invalid signature stores one unlinked delivery and answers 401. |
| Outcomes.DispatchEnds | packages/knocker/python/knocker/_knocker.py:992-1073 | For an event that is there and not ignored, a dispatch dead-letters if and only if there is no handler for (endpoint, event type) nor for (endpoint, none) and the claim stands at the end, completes if and only if there is one, it returns and the claim stands, raises if and only if it raises, and loses the claim otherwise; endpoint and type are those the handler is given. |
| Outcomes.HandlerGets | packages/knocker/python/knocker/_knocker.py:979-991 | The handler is given the event row, or the identity and lifecycle columns of that row with the endpoint, request and key of the chosen delivery; an unknown or unlinked delivery is an error. |
| Outcomes.DispatchStopsShort | packages/knocker/python/knocker/_knocker.py:964-978 | A dispatch drains its job if and only if the event is gone or ignored, and cannot be read if and only if the payload has no event id. |
| Outcomes.CompletedLeaves | packages/knocker/python/knocker/_knocker.py:1023-1036 | A completed dispatch leaves the event handled, with that claim as its attempt count, the time of the mark and no error, one handled attempt row, the handler's writes and no job, and changes nothing else. |
| Outcomes.DeadLetteredLeaves | packages/knocker/python/knocker/_knocker.py:993-1022 | A dead-lettered one leaves the event dead, with that claim as its attempt count, the error and one dead attempt row, and no job, and changes nothing else. |
| Outcomes.OtherEndsLeave | packages/knocker/python/knocker/_knocker.py:969-978 | A drained job goes if its claim stands; every other end of a dispatch leaves all tables as they were. |
| Outcomes.FailureLeaves | packages/knocker/python/knocker/_knocker.py:1040-1068 | A failure is recorded if and only if the event is there and the claim stands at the end, with these columns: dead and no job at the last try, failed and a freed job before; else nothing changes and the error says which. |
| Outcomes.WorkerAfterDispatch | packages/knocker/python/knocker/_knocker.py:916-957 | In the state machine a worker dispatches the first job of its buffer, keeps what its handler raised, and ends when its claim was lost or the payload cannot be read. |
| Outcomes.WorkerAfterFailure | packages/knocker/python/knocker/_knocker.py:1031-1068 | It goes on once the failure is recorded, with its other jobs, and ends if it cannot be. |
| Outcomes.ReplayAdmits | knocker-core/src/knocker_ops.rs:1964-1981 | Replay succeeds if and only if the event is there and handled, failed, dead or ignored; it then leaves the event as new and one new job in place of the queue's jobs for it, and nothing else changes; else the error says which. |
| Outcomes.RequeueAdmits | knocker-core/src/knocker_ops.rs:1983-2000 | The same for requeue and failed, dead and ignored events. |
| Outcomes.ReplayDeliveryAdmits | packages/knocker/python/knocker/_knocker.py:584-630 | The same for replay_delivery, for a delivery that is there and linked to an event that replay admits. |
| Outcomes.IgnoreAdmits | packages/knocker/python/knocker/_knocker.py:540-552 | Ignore succeeds if and only if the event is there and received, failed, dead or ignored; what it changes, column by column. |
| Outcomes.MarksSet | knocker-core/src/knocker_ops.rs:1872-1962 | What each mark sets in the one row and which attempt it writes, whatever the status is. |
| Outcomes.ClaimStands | packages/knocker/python/knocker/queue.py:134-153 | ack, retry and fail take effect if and only if the worker has the row's claim and its lease is not over; retry frees a row that has tries left and takes out one that has none. |
| Outcomes.ClaimTakes | packages/knocker/python/knocker/queue.py:117-118 | A row can be claimed if and only if it is on the queue and nobody's claim on it stands; claiming counts it, and changes claimed rows only. |
| RetentionLaws.PruneRemovesOldest | knocker-core/src/knocker_ops.rs:2260-2292 | On valid arguments the removed events have a listed status and were received before the cutoff, and are at most limit; one such event stays only if limit events were removed, each of them before it in (received_at, id); the kept rows are as they were. |
| RetentionLaws.PruneRemovesTheirRows | knocker-core/src/knocker_ops.rs:2320-2364 | With them go exactly the deliveries linked to them, their attempts, and the queue's live jobs that name them; no other row of any table changes. |
| RetentionLaws.OrphansRemovedOldestFirst | knocker-core/src/knocker_ops.rs:2366-2383 | The same order and limit for unlinked deliveries from before the cutoff; no other row changes. |
| RetentionLaws.PruneRefuses | knocker-core/src/knocker_ops.rs:2225-2258 | A prune succeeds on exactly the valid arguments; else it changes nothing and returns the first error: no statuses, the first that may not be pruned, a negative cutoff, a limit outside 1 to 1000. |
| RetentionLaws.OrphanPruneRefuses | knocker-core/src/knocker_ops.rs:2242-2258 | The same for an orphan prune. |
| RetentionLaws.PassIsTwoPrunes | knocker-core/src/knocker_ops.rs:2090-2136 | A pass is the event prune and then the orphan prune, each with its own cutoff and limit, of those that have a cutoff, and stops at the first error. |
| RetentionLaws.PruneKeepsForeignKeys | knocker-core/src/knocker_ops.rs:2349-2364 | A prune leaves every foreign key pointing at a row and orphans no delivery. |
| RetentionLaws.PruneCountsConserved | knocker-core/src/knocker_ops.rs:2015-2051 | For events, deliveries, attempts and live jobs the rows before are the rows after and the reported count, and the one new audit row has the same four numbers. |
| RetentionLaws.OrphanCountsConserved | knocker-core/src/knocker_ops.rs:2057-2086 | The same for deliveries in an orphan prune, which removes unlinked deliveries from before the cutoff only. |
| RetentionLaws.PruneSplits | knocker-core/src/knocker_ops.rs:2004-2053 | Limit a and then limit b, at any times, leave the same tables as one prune with limit a + b at any time, and the two reports add up to its report. |
| RetentionLaws.PassesNeeded | knocker-core/src/knocker_ops.rs:2004-2053 | Repeating a prune with limit L, each pass at its own time, leaves none of N eligible events if and only if there are at least ceil(N/L) passes. |
| RetentionLaws.HalvesCommute | knocker-core/src/knocker_ops.rs:2106-2130 | The two halves of a retention pass, in either order and at any times, leave the same tables and report the same; the audit rows are the same but for their order and times. |
| RetentionLaws.OrphansUnmoved | knocker-core/src/knocker_ops.rs:2366-2383 | Deleting events does not change which orphans a prune picks. |
| RetentionLaws.EventsUnmoved | knocker-core/src/knocker_ops.rs:2260-2292 | Deleting orphans does not change which events a prune picks. |
| RetentionLaws.PassSucceeds | knocker-core/src/knocker_ops.rs:2090-2136 | A retention pass succeeds on exactly the valid arguments. |
| RetentionLaws.PassIsAllOrNothing | packages/knocker/python/knocker/_knocker.py:863-891 | The retention job commits if and only if the arguments are valid and its claim still stands at the end; then it is gone, the pass is what it reports and all else it did, and no other queue lost a job; else everything is as before, a half already done included, and the error says which. |
| Retention.FirstUnsupported | knocker-core/src/knocker_ops.rs:2225-2240 | The list of statuses passes if and only if each is handled or ignored; else the error names the first that is not. |
| Selection.TakeMeets | knocker-core/src/knocker_ops.rs:2270-2283 | The selected ids are distinct, in strict order, of the right number, and each before every id left out. |
| Selection.TakeIsUnique | knocker-core/src/knocker_ops.rs:2270-2283 | No other list of ids is like that. |
| Sqlite.Database.Ingest | knocker-core/src/knocker_ops.rs:283-384 | The statements leave what Inbox.Ingest says, and return its receipt or error. |
| Sqlite.Database.Replay | knocker-core/src/knocker_ops.rs:1964-1981 | The event's live jobs go, the event is reset and one job is enqueued; other statuses are refused. |
| Sqlite.Database.Requeue | knocker-core/src/knocker_ops.rs:1983-2000 | The same for failed, dead and ignored events. |
| Sqlite.Database.StaleLiveJobIds | knocker-core/src/knocker_ops.rs:2320-2340 | The scan returns, once each, exactly the live jobs of the queue whose payload names one of the events. |
| Sqlite.Database.DeleteLiveJobsById | knocker-core/src/knocker_ops.rs:2342-2347 | Those jobs are gone and nothing else changed. |
| Sqlite.Database.CountEventAttempts | knocker-core/src/knocker_ops.rs:2294-2305 | The sum over the ids is the number of attempts the cascade will remove. |
| Sqlite.Database.CountEventDeliveries | knocker-core/src/knocker_ops.rs:2307-2318 | The sum over the ids is the number of their deliveries. |
| Sqlite.Database.DeleteDeliveriesForEventIds | knocker-core/src/knocker_ops.rs:2349-2357 | All deliveries linked to the ids are gone and nothing else changed. |
| Sqlite.Database.DeleteEventsById | knocker-core/src/knocker_ops.rs:2359-2364 | The events and, by cascade, their attempts are gone. |
| Sqlite.Database.DeleteDeliveriesById | knocker-core/src/knocker_ops.rs:2385-2393 | Those deliveries are gone. |
| Sqlite.Database.PruneEvents | knocker-core/src/knocker_ops.rs:2004-2053 | Checks, selection, counts, deletions and audit row together do what Retention.PruneEvents says. |
| Sqlite.Database.PruneOrphanDeliveries | knocker-core/src/knocker_ops.rs:2057-2086 | The same for unlinked deliveries. |
| Sqlite.Database.RunRetentionPass | knocker-core/src/knocker_ops.rs:2090-2136 | Either half, or both in this order, or an error if neither is enabled. |
| App.Knocker.Ingest | packages/knocker/python/knocker/_knocker.py:319-367 | Ingest in a transaction. |
| App.Knocker.Ignore | packages/knocker/python/knocker/_knocker.py:540-552 | Ignores received, failed and dead events, does nothing to ignored ones, and refuses the rest. |
| App.Knocker.Replay | packages/knocker/python/knocker/_knocker.py:554-567 | Replay in a transaction. |
| App.Knocker.Requeue | packages/knocker/python/knocker/_knocker.py:569-582 | Requeue in a transaction. |
| App.Knocker.ReplayDelivery | packages/knocker/python/knocker/_knocker.py:584-630 | Restarts the delivery's event with a job that names the delivery, or changes nothing and says why. |
| App.Knocker.PruneEvents | packages/knocker/python/knocker/_knocker.py:632-660 | The prune in a transaction: an error undoes it. |
| App.Knocker.PruneOrphanDeliveries | packages/knocker/python/knocker/_knocker.py:662-678 | The orphan prune in a transaction. |
| App.Knocker.RunRetentionJob | packages/knocker/python/knocker/_knocker.py:863-891 | The pass and the acknowledgement of its job commit together or not at all. |
| App.Knocker.DispatchJob | packages/knocker/python/knocker/_knocker.py:964-1038 | One job up to the end of its transaction: drained, dead-lettered, completed, or rolled back because the handler raised or the claim was lost. |
| App.Knocker.FailJob | packages/knocker/python/knocker/_knocker.py:1040-1068 | The failure record, the retry or fail and, if the claim was lost or the event is gone, their rollback. |
| Claims.WorkerQueueIter.Next | packages/knocker/python/knocker/queue.py:53-83 | A non-empty buffer hands out its first job and claims nothing; else the first round that is not an empty batch and a wake-up decides: a batch is handed out from its first job on and the rest buffered in order, a closed or cancelled wait closes the updates and ends the iteration. |
| Claims.RunWorker | packages/knocker/python/knocker/_knocker.py:916-957 | A worker that returns because of stop has dispatched every job it claimed, in order; once told to stop it goes on only while its buffer lasts; every turn before the last dispatched one job without an error, and the last turn has what the exit says: a stop or a wait that it cut short, an error of the dispatch or a cancelled wait, or a closed stream. |
| WriterPool.Transaction.Enter | packages/knocker/src/lib.rs:220-243 | Takes the connection and begins, or waits, or fails because the writer is closed, or gives the connection back as it was; one place holds it throughout. |
| WriterPool.Transaction.Exit | packages/knocker/src/lib.rs:245-281 | Commits or rolls back, releases the connection exactly once per acquisition with no transaction open, and does nothing on reuse. |
| WriterPool.Transaction.Drop | packages/knocker/src/lib.rs:203-216 | Rolls back and releases what was still held, and only that. |
| WriterPool.RunOps | packages/knocker/src/lib.rs:177-281 | Any sequence of enter, exit and drop on any transaction objects, and closing the writer at any time, keeps exactly one holder, and one release per acquisition but the one in progress. |
| WriterPool.NewPool | packages/knocker/src/lib.rs:116-135 | A new writer with any number of new transaction objects starts out that way. |
| Stripe.SemicolonIsLastRepeated | knocker-core/src/knocker_ops.rs:1708-1728 | The map parser at a key gives the last of the values the list parser gives, and has no key without one. |
| Text.SpacesAre | packages/knocker/python/knocker/providers.py:307-308 | The code points that each language trims. |
| Text.TrimParts | packages/knocker/python/knocker/providers.py:307-308 | Trimming takes off white space only, and leaves none at the ends. |
| Text.TrimIs | packages/knocker/python/knocker/providers.py:307-308 | There is one way only to do that. |
| Text.TrimsDiffer | packages/knocker/python/knocker/providers.py:307-308 | Python's strip and Rust's trim give the same if and only if what trim leaves neither starts nor ends with one of U+001C to U+001F. |
| Stripe.ParseStripeSignature | packages/knocker/python/knocker/providers.py:300-317 | For any reading of integers, the loop returns what the fold of its pieces, stripped the Python way, says, or raises. |
| Stripe.GatherIsTwoPasses | packages/knocker/python/knocker/providers.py:303-312 | The one pass gathers the last t and the non-empty v1 values in order, and goes through if and only if every t is an integer. |
| Stripe.DigestsAgree | knocker-core/src/knocker_ops.rs:1717-1728 | The two parsers find the same non-empty v1 digests in order if and only if no piece that Python takes for a v1 has a separator at an end of its value, or of its key where that hides a digest. |
| Stripe.LastTimeSeen | knocker-core/src/knocker_ops.rs:1708-1715 | Rust takes the t that Python takes, unless a separator spoils its key: then the one before; it reads no value that a separator spoils. |
| Stripe.PythonAgreesWithRust | packages/knocker/python/knocker/providers.py:300-317 | For any int() that gives the same number where both read: Python accepts if and only if there are a t and a non-empty digest to it and it reads all t values; Rust then has the same digests if and only if no piece is spoiled, and the same timestamp if and only if the last t is unspoiled and readable to Rust, or its key is spoiled and Rust finds the same number before. |
| Stripe.CleanHeadersAgree | packages/knocker/python/knocker/providers.py:300-317 | Without U+001C to U+001F in an accepted header the digests are the same, and the timestamp unless Rust cannot read the last t. |
| Stripe.SeparatorAfterDigest | knocker-core/src/knocker_ops.rs:1717-1728 | A separator after a printed header is part of Rust's digest and not of Python's. |
| Stripe.SeparatorAfterKey | knocker-core/src/knocker_ops.rs:1708-1715 | A separator after the t of a printed header leaves Rust without a timestamp and Python with one. |
| Stripe.RustAcceptsMore | knocker-core/src/knocker_ops.rs:561-569 | A header with a t that int() refuses before a good one is read by Rust and refused by Python. |
| Stripe.PrintParses | knocker-core/src/knocker_ops.rs:562-562 | Reading a printed 64-bit integer gives it back. |
| Stripe.ToleranceMeant | knocker-core/src/knocker_ops.rs:1746-1752 | The tolerance check means the distance in seconds if and only if the 64-bit subtraction does not overflow or what is left of it is too long as well. |
| Stripe.OverflowIsInTime | knocker-core/src/knocker_ops.rs:1746-1752 | A timestamp of 2^63 seconds ago passes every tolerance. |
| Stripe.PrintedHeaderVerdict | knocker-core/src/knocker_ops.rs:545-595 | A printed t=n,v1=hex header is accepted if and only if it passes the tolerance check and the digest is that of the signed payload under a configured secret; passing is being in time unless n is more than 2^63 - 1 seconds ago. |
| Stripe.VerdictIs | knocker-core/src/knocker_ops.rs:545-595 | The verdict on any header, with or without a usable timestamp: the last t counts, and it is accepted if and only if it passes the tolerance check and any of its v1 digests is that of the signed payload under any secret. |
| Stripe.AnyDigestCounts | knocker-core/src/knocker_ops.rs:1717-1728 | A printed header with any number of digests is read back, and accepted on exactly those terms. |
| Stripe.ParsesAre | knocker-core/src/knocker_ops.rs:562-562 | A text is read as n if and only if n fits 64 bits and the text is n printed, with zeros before it or not, and with a sign, or with none if n is not negative. |
| Twilio.StableSortSorts | knocker-core/src/knocker_ops.rs:1674-1674 | The result is in key order and keeps each key's values in their order. |
| Twilio.SortedIsUnique | knocker-core/src/knocker_ops.rs:1674-1674 | No two lists are in key order with the same values for each key. |
| Twilio.TwilioSignedPayload | knocker-core/src/knocker_ops.rs:1670-1681 | The loop appends the sorted keys and values to the URL: the payload that Twilio.PayloadOfNone, PayloadOfOne and PayloadInOrder determine. |
| Twilio.CanonicalForm | knocker-core/src/knocker_ops.rs:1670-1681 | Parameter lists that differ only in how their keys are interleaved have the same signed payload. |
| Twilio.PayloadInOrder | knocker-core/src/knocker_ops.rs:1670-1681 | Parameters whose keys come after those of others, or are the same and given later, are signed after them, however the two are interleaved. |
| Twilio.PayloadOfOne | knocker-core/src/knocker_ops.rs:1676-1679 | One parameter is signed as the URL, its key and its value. |
| Twilio.PayloadOfNone | knocker-core/src/knocker_ops.rs:1675-1680 | Without parameters the payload is the URL. |
| Twilio.AtMostIsPrecedes | knocker-core/src/knocker_ops.rs:1674-1674 | The order of keys is that of a dictionary: a proper prefix first, or the smaller character where two first differ. |
| Payloads.RustFindsWork | knocker-core/src/knocker_ops.rs:2217-2223 | In any live table the Rust search finds exactly the jobs that a worker would run for the events. |
| Payloads.PythonFindsMore | packages/knocker/python/knocker/_knocker.py:718-733 | The Python search raises exactly if some job has an infinite event id; otherwise it finds the same jobs and those whose event id is a text or fraction that int() makes one of the events. |
| Payloads.SearchesAgree | packages/knocker/python/knocker/job_payload.py:7-36 | The two searches agree if and only if the table has neither. |
| Payloads.InfiniteIdsFail | packages/knocker/python/knocker/job_payload.py:33-36 | One infinite event id makes the Python search raise for every event; Rust finds what it found without it. |
| Payloads.StringIdsAreCoerced | packages/knocker/python/knocker/job_payload.py:31-36 | A job with its event id in a string is found by the Python search alone. |
| Payloads.WrittenIsRead | knocker-core/src/knocker_ops.rs:2217-2223 | A payload Knocker wrote is read back alike by both searches and by the worker. |
| Payloads.IntegersOnly | packages/knocker/python/knocker/job_payload.py:39-56 | The worker takes an integer field of an object and raises for any other, a missing delivery id apart; Rust takes it if it fits 64 bits. |
| Payloads.TruncatedTowardZero | packages/knocker/python/knocker/job_payload.py:33-36 | int() of a fraction cuts toward zero. |

## Left out

- Honker.Finish: the dead-letter table, the error text and the retry delay are Honker's.
- Honker.CanClaim: any claimable rows may be claimed, in any order; priorities, run_at and the order of claims are Honker's.
- Inbox.JobsFor: reads a payload as the worker does; one that only the Python search takes for an event id, or on which it raises, counts as foreign, so replay_delivery is modelled for tables on which the searches agree.
- App.Knocker.ReplayDelivery: its search for stale jobs reads payloads as the worker does; Payloads.PythonFindsMore says what the Python search finds besides, and when it raises.
- Inbox.Ignore: statuses are the six values the schema admits, not arbitrary strings.
- Retention.FirstUnsupported: a status outside the schema is refused like the four that may not be pruned.
- Retries.AlwaysFailingDies: that a worker does claim the job again is up to Honker and the scheduling of workers.
- WriterPool.Transaction.Exit: a ROLLBACK that fails; and what closing the writer does to a connection in use is Honker's.
- Outcomes.DeadLetteredLeaves: the text of the error, which names the endpoint and the event type, is one constant; so are those of the two delivery errors in Outcomes.DispatchStopsShort.
- Twilio.TwilioSignedPayload: takes the decoded parameters; the decoding of the form body is a library's.
- Stripe.VerifyStripe: HMAC is a parameter, overflow checks are off, and an invalid tolerance option is not modelled.
- Payloads.SearchesAgree: texts that only one of the two JSON decoders accepts.
- Endpoint ids, paths and providers: an endpoint is its unique name, and is never deleted.
- SQL text, JSON encoding, row mapping, the bindings to Python, schema checks, and errors of SQLite itself.
- The other providers' verifiers and cryptography: header checks that would add easy members.
- The Bun, Node, Go, Ruby and Elixir workers: near copies, some of which do not look at the results of ack, retry and fail.
- Retention scheduling and leadership, wake-ups, worker snapshots, list queries, benchmarks and documentation.

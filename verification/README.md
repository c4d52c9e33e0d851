# taskboss: a model of the job queue, its push consumers and its scenario language

This project models taskboss, a PostgreSQL job-queue extension, in Dafny and proves what it keeps over
whole runs. It has three layers. All files verify together with `dafny verify dfyconfig.toml`.

## The queue engine

- `Jobs` has the rows of `boss.queue` and `boss.job` and what each SET clause does to one row. `retry_limit`
  may be negative, `complete` leaves `started_on` alone while `fail` and `maintain` clear it, and nothing
  sets `cancelled`; the model keeps all three. Time is in microseconds.
- `Lifecycle` is the atomic machine: one operation per row, enabled by the statement's WHERE clause. `Run`
  plays a history; `Tally` counts a job's claims and outcomes. `Histories` and `Termination` prove what holds
  over every history: the claim ledger, conservation, retry spacing, a bound on all work.
- `Ordering` and `Engine` give each SQL function as one statement in set form (filter, sort, limit; bulk
  UPDATE and DELETE) and prove that each is a run of the atomic machine.
- `Columns` says what each of these functions does in terms of raw columns and literal constants, so that nothing
  rests on a name of another module: which rows a fetch takes and in what order, every column of a new job, what
  `complete`, `fail` and `maintain` leave of every row.
- `JobTable` is the imperative engine: a class that holds the rows and, per queue, the sorted listing that
  `job_fetch_idx` is. Every method is proved equal to its set form and to keep index and rows in step.
- `Sessions` is PostgreSQL at READ COMMITTED: any number of sessions, each with a transaction of its own
  (`now()` fixed at its start, uncommitted writes, row locks, pending notifications), one row visit at a
  time. A statement scans a snapshot, then locks, skips or waits, re-checks the latest version, and writes.
  A lock taken for a row that then fails the re-check is kept. `Serialization` proves that the committed data
  is always what the committed operations produce one after the other; `Delivery` reads off the guarantees, and
  `Statements` says what each statement does as steps of that system: a fetch and a deletion with others coming in
  between, a maintain, and the statements on a single row or queue.
- `Runs` writes down, step by step, what single sessions do to a queue with one job. `Redelivery` puts such
  runs together: every number of claims up to the bound does happen, and a late report lands on another
  worker's claim.

## Push consumers

- `Wakeups` puts workers with notification inboxes next to those sessions and proves why a job can be left
  behind while its worker sleeps. `Silences` names the five things the end of a transaction can leave unsaid: a
  new job due only later, a retry due only later, a job put back by maintenance, a row locked but not written,
  and an aborted holder. If none of them occurs, no job waits behind a sleeping worker unless another session
  holds it right now. `LostWakeups` has a run for each in which only that one occurs and a due job that nobody
  holds is missed. So workers can be relied on exactly when nothing is left unsaid.
- `Serving` is the other side: a send wakes the workers of its queue, and a worker that is told of a due job
  claims, handles and completes it by its own moves.
- `Channels` compares the two definitions of the channel name. `Client` is the drain loop of `Work` over
  `JobTable`, with other sessions at work between and during its rounds.

## The scenario language

- `Scenario`, `Grammar` and `ScriptParser` are the syntax tree, the option structs and the parser. `Printer`
  defines a canonical text. `RoundTrip`, `CommandRoundTrip`, `ScriptRoundTrip` and `Canonical` prove that
  parsing undoes printing and that everything that parses can be printed. `Choice` proves that ordered choice
  never has two candidates, `ScriptLines` what blank lines, comments and line numbers do, `Layout` that
  indentation and line ends do not matter, and `Wording` what else is accepted and what is rejected.
- `Servers` is the database as the runner meets it: calls take time and may fail, and before each of them
  background consumers, other clients and the maintenance worker do as they like. `Logs` keeps who did what,
  so that the tables are always what the log makes of those at the start. `Consumer` is `consume_wait` and
  `Runner` the scenario runner on that server, with what it executed, what it did itself, and what it leaves.

## Where the code and its documentation differ

- README.md:10 and src/schema.rs:117 promise exactly-once delivery. What holds is once per attempt: committed
  claims of a job have different retry counts (`Delivery.ClaimedOncePerAttempt`). A job can be claimed n times
  exactly when n <= max(0, retry_limit) + 1 (`Redelivery.ClaimsPossible`), so delivery is exactly-once exactly
  for jobs sent with retry_limit <= 0 (`Redelivery.ExactlyOnce`). `complete` and `fail` carry no claim token: a
  report is accepted for whatever claim is current (`Redelivery.StaleReport`).
- client/client.go:133-135 says that `Channel` mirrors `boss.channel`. The two differ on names that fit 63
  characters but not 63 bytes (`Channels.ChannelsDiffer`). To such a queue `send` fails, because `pg_notify`
  rejects the channel, so no worker ever misses a job for it.
- client/client.go:245-247 says that `Work` wakes the instant a new job is enqueued. It sleeps on when a job
  deferred by startAfter or by retry_delay comes due, when maintenance puts a job back, and when a job it skipped
  as locked is let go of unchanged (`LostWakeups`).

## Model

| member | source | states |
|---|---|---|
| Lifecycle.History | src/schema.rs:97-223 | in every reachable state each job balances: its identity, the shape of its row, its claims and outcomes against retry_count and state, and the budget it has left |
| Lifecycle.RowWise | src/schema.rs:97-223 | every operation acts on each row alone: what it needs of the row, what the row becomes, and that ids are never drawn twice |
| Histories.DeliveryBound | src/schema.rs:132-186 | over any history, also after the row is gone: at most max(0, retry_limit) + 1 claims, at most one completion, each claim at most one outcome |
| Histories.ClaimLedger | src/schema.rs:132-218 | claims = retry_count + 1 if active, completed or failed; claims = completes + fails + expiries + 1 if active |
| Histories.ClaimsAreDistinct | src/schema.rs:118-137 | a later claim of a job sees a larger retry_count, so (id, retry_count) is claimed once |
| Histories.Reachable | src/schema.rs:38-55 | every reachable row: created means count 0, retry at least 1, counts within max(0, limit), started_on exactly in active and completed rows, completed_on exactly in completed and failed rows, never cancelled, queue registered and fit to be notified |
| Histories.GoneStaysGone | src/schema.rs:39 | an id once issued stays issued, and a row that left the table never comes back |
| Histories.TerminalIsFinal | src/schema.rs:148-187 | a completed or failed row is never written again, only deleted |
| Histories.JobConservation | src/schema.rs:97-109 | a sent job is in the table with its identity unchanged, or a drop of its queue or a purge after keep_until took it out, and nothing else can |
| Histories.SinceClaim | src/schema.rs:132-134 | until the next claim a claimed row is active since that claim, put back by a known failure, or finished |
| Histories.RetrySpacing | src/schema.rs:172-218 | between consecutive claims lies a failure; the later claim waits retry_delay after it, and after an expiry also more than expire_seconds after the earlier claim |
| Termination.MeasureDrops | src/schema.rs:132-218 | every claim, complete, fail and expiry strictly lowers the measure of its row |
| Termination.PotentialStep | src/schema.rs:97-223 | the sum of all measures falls with every claim and outcome and rises only by what an insert brings |
| Termination.WorkIsBounded | src/schema.rs:97-218 | claims and outcomes over a whole history never exceed the sum of 2 * (max(0, retry_limit) + 1) over the jobs sent |
| Termination.AllowanceOfJob | src/schema.rs:172-185 | a job adds 2 * (max(0, retry_limit) + 1) to the allowance, anything else nothing |
| Engine.FetchIdsAreClaimable | src/schema.rs:122-131 | fetch selects due, unlocked rows of its queue, each once, in index order |
| Engine.FetchTakesTheFirst | src/schema.rs:128-130 | fetch claims as many rows as the limit and the table allow, and every claimable row it leaves comes after those it takes |
| Engine.ClaimableAfter | src/schema.rs:132-135 | what is claimable after a fetch is what was claimable without the claimed rows |
| Engine.FetchSplits | src/schema.rs:122-136 | fetch(a + b) claims the same rows, in the same state, as fetch(a) and then fetch(b) |
| Engine.DrainInOrder | src/schema.rs:122-136 | repeated fetch(1) claims every due job once, in order of priority descending, created_on, id |
| Engine.RunOver | src/schema.rs:132-135 | a bulk update is a serial run of row operations in any order of the rows |
| Engine.FetchRuns | src/schema.rs:118-137 | a fetch is a serial run of enabled claims |
| Engine.ExpireRuns | src/schema.rs:206-218 | the UPDATE of maintain is a serial run of expiries over exactly the overdue rows, in any order |
| Engine.PurgeRuns | src/schema.rs:221-223 | the DELETE of maintain is a serial run of purges in any order |
| Engine.MaintainRuns | src/schema.rs:200-225 | maintain is expiries in any order, then purges in any order, rows just failed included |
| Engine.ExpireIsFail | src/schema.rs:172-215 | on a well-formed active row the CASE expressions of maintain agree with the branches of fail on every column but output |
| Engine.MaintainIsFailThenPurge | src/schema.rs:172-223 | maintain equals fail on exactly the overdue rows, in any order, and then the purge, output aside |
| Engine.MaintainIdempotent | src/schema.rs:200-225 | a second maintain at the same instant changes nothing |
| Engine.SendRuns | src/schema.rs:86-111 | a send that raises no error is an insert of a fresh newborn row of a registered queue that can be notified |
| Engine.OutcomeRuns | src/schema.rs:141-188 | complete and fail are the atomic operation if the job is active in that queue, else nothing |
| Engine.QueueRuns | src/lib.rs:39-73 | creating an existing queue and deleting a missing one change nothing; otherwise they are the atomic operations |
| Ordering.RankedSorts | src/schema.rs:128 | the specified listing of a set of keys is sorted and has exactly those keys |
| Ordering.SortedUnique | src/schema.rs:58-60 | the index order is total: a set of keys has one sorted listing |
| Columns.FetchedColumns | src/schema.rs:122-131 | on columns: fetch takes as many waiting, due, unlocked rows of the queue as there are and the limit allows, by priority downwards, then created_on, then id, and every such row left out comes after all of them |
| Columns.BatchColumns | src/schema.rs:122-136 | the same for the claimed set: a due row is left out only if the batch is full of rows that come before it |
| Columns.ClaimedColumns | src/schema.rs:132-135 | claimed rows become active with started_on now; every other row and column stays |
| Columns.SentColumns | src/schema.rs:86-109 | exactly when send succeeds, and every column of the row it inserts, from the arguments and the queue row |
| Columns.CompletedColumns | src/schema.rs:148-150 | complete sets state, completed_on and output of a job active in that queue and nothing else; otherwise nothing changes |
| Columns.FailedColumns | src/schema.rs:165-185 | fail sets the columns of a retry while attempts remain and those of a failed job otherwise, on a job active in that queue; otherwise nothing changes |
| Columns.MaintainedRow | src/schema.rs:206-223 | row by row: overrun active rows are retried or failed, finished rows past keep_until are gone, those just failed included, all others are unchanged |
| Columns.MarkedOutput | src/schema.rs:215 | an expired job's output is its former object with the field __expired set to true |
| Columns.MaintainLeaves | src/schema.rs:206-223 | after maintain no finished row is past keep_until and no active row has overrun, and every other row is there unchanged |
| Columns.CreatedColumns | src/lib.rs:40-63 | a new queue has the options given, narrowed to 32 bits, else 2, 0, 900 and 14 days; an existing one is left alone |
| Columns.Narrowed | src/lib.rs:43 | narrowing keeps numbers of 32 bits and takes others modulo 2^32 into that range |
| Columns.DeletedColumns | src/lib.rs:69-73 | exactly the queue and its jobs go |
| JobTable.ScanIsFilterSort | src/schema.rs:122-130 | filtering the index in order gives what filtering the rows and sorting gives |
| JobTable.ScanStep | src/schema.rs:122-130 | one step of the scan claims or keeps a key and leaves a sorted rest that lists exactly what is unclaimed |
| JobTable.Reindexed | src/schema.rs:58-60 | claiming rows takes exactly their keys out of the partial index |
| JobTable.InsertKey | src/schema.rs:58-60 | an index insertion keeps the listing sorted and adds exactly that key |
| JobTable.Table.CreateQueue | src/lib.rs:50-63 | first creation wins: an existing queue keeps its defaults |
| JobTable.Table.DeleteQueue | src/lib.rs:69-73 | the queue, all its jobs and its index entries go; others stay |
| JobTable.Table.Send | src/schema.rs:77-114 | the new row with the queue's defaults, or one of the errors and no change: unknown queue, bad option, or a channel the server cannot notify; the index follows |
| JobTable.Table.Scan | src/schema.rs:122-136 | the loop over the index claims the first due unlocked rows and returns the listing that is left |
| JobTable.Table.Fetch | src/schema.rs:118-137 | the index-driven claim equals filter, sort and limit, and on columns takes waiting, due, unlocked rows of highest priority, then oldest, then smallest id; the index again lists exactly the waiting rows |
| JobTable.Table.Complete | src/schema.rs:141-154 | true and completed exactly if the job was active in that queue |
| JobTable.Table.Fail | src/schema.rs:158-188 | retry or failed as the counts say, the retried row filed in the index; false and nothing otherwise |
| JobTable.Table.ExpireOverdue | src/schema.rs:206-218 | a row-by-row loop in any order equals the set form of the UPDATE and keeps the index |
| JobTable.Table.Maintain | src/schema.rs:200-225 | both statements, index included |
| JobTable.Table.Purge | src/schema.rs:221-223 | the purge removes no indexed row |
| JobTable.Table.Act | src/schema.rs:77-225 | any single operation of another session, applied to rows and index alike if it is enabled, else without effect |
| JobTable.Table.PendingCount | dsltest/src/runner.rs:328-337 | the length of the listing is the number of rows of the queue in state created or retry |
| Serialization.ActOk | src/schema.rs:77-225 | any step of any session, interleaved as it may be, keeps its log replayable on every database the others can still commit |
| Serialization.CommitReplays | src/schema.rs:118-225 | at any moment an open transaction's log replays on the committed data and gives what the transaction sees |
| Serialization.StepOk | src/schema.rs:77-225 | every event of the concurrent system keeps the invariant |
| Serialization.Reached | src/schema.rs:77-225 | the invariant holds in every state any interleaving reaches |
| Delivery.SerialRun | src/schema.rs:77-225 | the committed data is the serial run of the committed operations, each enabled in its turn |
| Delivery.LocksAreExclusive | src/schema.rs:130 | no row is held by two sessions, and nobody else writes a held row |
| Delivery.AbortLeavesNoTrace | src/schema.rs:118-137 | an aborted claim changes no data and frees every row it held |
| Delivery.ClaimedOncePerAttempt | src/schema.rs:116-137 | over all interleavings, committed claims of a job belong to different attempts |
| Delivery.CommittedBooks | src/schema.rs:118-218 | the ledger, the row shape and the delivery bound in every reachable state of the concurrent system |
| Delivery.CommittedJobsAreKept | src/schema.rs:97-109 | job conservation for the committed operations of any interleaving |
| Delivery.CommittedOutcomesAreFinal | src/schema.rs:148-187 | a finished row never changes again in the committed history of any interleaving |
| Delivery.CommittedRetriesAreSpaced | src/schema.rs:172-218 | retry spacing for the committed claims of any interleaving |
| Delivery.CommittedWorkIsBounded | src/schema.rs:118-218 | the work bound for the committed operations of any interleaving |
| Delivery.SkipLockedIsFetch | src/schema.rs:122-131 | walking the ordered scan and skipping held rows claims what fetch claims among the rows nobody holds |
| Delivery.ViewIsSerial | src/schema.rs:118-225 | what an open transaction sees is the end of a serial run |
| Delivery.FetchStatement | src/schema.rs:118-137 | from any reachable state the scan and the row visits are steps of the system that, uninterrupted, log exactly the claims of the set form among the rows nobody else holds |
| Statements.InterleavedFetch | src/schema.rs:118-137 | whatever other sessions do between its rows, a fetch logs at most batch_size claims, of rows its scan found, in order, each due in the version it locked, held by nobody else then and by it from then on |
| Statements.MaintainStatement | src/schema.rs:200-225 | an uninterrupted maintain logs exactly the expiries of the overdue rows, in some order, then the purges of what is purgeable then; its transaction sees the set form, in which no finished row is past keep_until, no active row has overrun, and all other rows are unchanged |
| Statements.CreateStatement | src/lib.rs:50-63 | a create_queue step leaves its session seeing the set form of create_queue |
| Statements.SendStatement | src/schema.rs:86-112 | the steps of a send leave its session seeing the job that send makes of what it sees, and notify the queue |
| Statements.CompleteStatement | src/schema.rs:148-152 | the steps of a complete leave its session seeing the set form; a job that is not active is left alone at once |
| Statements.FailStatement | src/schema.rs:165-187 | the same for fail, which notifies the queue exactly for a retry |
| Statements.DropDoneDrops | src/lib.rs:69-73 | the last step of a deletion takes out the queue and every job of it that its session can see |
| Statements.DeleteStatement | src/lib.rs:69-73 | whatever others do in between, a delete_queue that comes to its end logs exactly the drop, and what its session commits then has neither the queue nor any job of it |
| Statements.DeleteRuns | src/lib.rs:69-73 | a queue that a session can see and nobody else holds it can delete |
| Statements.Begins | src/schema.rs:86-168 | statements begin at once, but create_queue waits exactly for a session about to create or delete that queue, and a send begins exactly if it can succeed |
| Statements.WaitsForRows | src/schema.rs:122-223 | a row is written or deleted exactly as soon as no other session holds it, a statement ends when its rows are done, a fetch never waits, and a session with no statement under way can commit |
| Redelivery.ClaimsPossible | src/schema.rs:132-186 | over all interleavings of sessions a job with a given retry_limit can be claimed n times if and only if n <= max(0, retry_limit) + 1 |
| Redelivery.ExactlyOnce | src/schema.rs:116-137 | no job sent with this retry_limit is ever claimed twice if and only if retry_limit <= 0 |
| Redelivery.StaleReport | src/schema.rs:148-150 | a run: one session claims, maintenance expires the claim, another session claims, and the first one's complete succeeds on that claim |
| Channels.ChannelsAgree | client/client.go:136-143 | client and server name the same channel exactly for the queues that can be notified |
| Channels.ChannelNames | src/schema.rs:64-72 | both names spelled out: the prefix boss_ and the queue name up to 58 characters or bytes, else the prefix and the digest |
| Channels.NotifiableFits | src/schema.rs:62-72 | the server's channel name fits 63 bytes except exactly when the prefixed name has at most 63 characters but more bytes |
| Channels.ChannelsDiffer | client/client.go:136-143 | a concrete name on which the two definitions differ, and which cannot be notified |
| Channels.OneByteNamesAgree | src/schema.rs:64-72 | for names of one-byte characters they always agree |
| Wakeups.CommitCovers | src/schema.rs:111 | a commit notifies a listener, or leaves every waiting job not due, still to be visited or excused |
| Wakeups.BystanderOk | client/client.go:277-283 | whatever other sessions do, a worker's account of its queue stays right |
| Wakeups.OwnStepOk | client/client.go:262-284 | the worker's own fetch, report and sleep keep that account |
| Wakeups.MoveOk | client/client.go:249-285 | every move of sessions and workers keeps the invariant |
| Wakeups.NoLostWakeup | client/client.go:256-284 | while a worker sleeps with an empty inbox every waiting job was not due when it last looked, or was put back by maintain since, or is held by a session that held it then, or was released unchanged by one |
| Silences.MoveInformed | client/client.go:262-284 | in runs that leave nothing unsaid, every move keeps that a sleeping or fetching worker was told of, or has seen as due, all that waits in its queue |
| Silences.NoneMissed | client/client.go:256-284 | in such runs nothing waits behind a worker asleep with an empty inbox but jobs that another session holds right now |
| LostWakeups.DeferredIsSilent | src/schema.rs:91-95 | a run whose only silence is a job sent with startAfter: it comes due and its worker sleeps on |
| LostWakeups.DelayedIsSilent | src/schema.rs:174-180 | a run whose only silence is a retry with retry_delay: notified too early, it comes due and its worker sleeps on |
| LostWakeups.RestoredIsSilent | src/schema.rs:205-218 | a run whose only silence is maintenance putting a job back after the worker looked |
| LostWakeups.LetGoIsSilent | src/schema.rs:148-150 | a run whose only silence is a late complete that keeps the row lock of a retried job while the worker skips it |
| LostWakeups.AbortedIsSilent | src/schema.rs:118-137 | a run whose only silence is a claim that is aborted after the worker skipped the job |
| LostWakeups.SafeExactlyWhenNothingIsSilent | client/client.go:245-285 | for every set of silences: no run limited to them makes a worker miss a due job if and only if the set is empty |
| Serving.SendTells | src/schema.rs:111 | the commit of a send puts one notification into the inbox of every listening worker of its queue |
| Serving.FailTells | src/schema.rs:172-184 | the commit of a fail does so exactly if the job is retried |
| Serving.WorkerServes | client/client.go:262-297 | a sleeping worker with a notification and a due job claims the job, completes it and goes on draining, by its own moves alone |
| Client.Process | client/client.go:287-297 | on the row, if it is active in that queue: completed with an empty object if the handler returned no error, else retried or failed by the counts with the error text as output; no other row changes, and nothing if the claim has ended meanwhile |
| Client.ReportColumns | client/client.go:287-297 | the same for the report as the drain loop makes it |
| Client.Drain | client/client.go:263-275 | with other sessions at work between and during its rounds and the clock moving: the loop ends with nothing claimable that it could lock, each job it handled was the first claimable one when it looked, and it handles no more jobs than retries and jobs sent meanwhile allow |
| Client.RoundPays | client/client.go:264-275 | a round uses up at least its claim, and what others send is all that can add to the budget |
| Client.QuietDrain | client/client.go:263-275 | alone, at one instant and with handlers that succeed, a drain handles every due job once in index order |
| Consumer.GaveUp | dsltest/src/runner.rs:356-391 | the run ends without a job if and only if every fetch of it found nothing claimable |
| Consumer.ConsumeWait | dsltest/src/runner.rs:356-391 | terminates within the deadline, polls and notifications; each later fetch comes at most 50 ms of waiting after the one before; every fetch claims the first due row nobody holds, only the last can have claimed, and that claim is all the call did; gives up only after the deadline; an error means nothing was claimed |
| Servers.Server.MoveOn | dsltest/src/runner.rs:116-121 | whatever goes on meanwhile is logged, and the tables stay what the log makes of them: consumers end or claim on touched queues and do nothing else, others do only what is enabled |
| Servers.Server.FetchOne | dsltest/src/runner.rs:393-400 | a fetch claims, among the rows the call finds, a waiting, due row of the queue that nobody holds and that comes first by priority, age and id; none exactly if there is none |
| Logs.ForeignPlayed | dsltest/src/runner.rs:45-66 | the tables outside the touched queues are what others and maintenance alone would have made of them |
| Logs.GoneAfterDrop | dsltest/src/runner.rs:339-345 | a queue dropped and not created since is gone with all its jobs |
| Scenario.CollectQueueOptions | dsltest/src/parser.rs:123-127 | the loop over the options is the fold of `set` |
| Scenario.CollectSendOptions | dsltest/src/parser.rs:163-170 | the same for push |
| Scenario.FoldQueueKeepsLast | dsltest/src/ast.rs:64-72 | folding keeps the last value given for each key |
| Scenario.FoldPushKeepsLast | dsltest/src/ast.rs:95-104 | the same for push |
| Scenario.QueueOptionsReachTheServer | dsltest/src/ast.rs:74-81 | through to_json and create_queue the queue gets the last value written for each key, as written if it has 32 bits, else the server's default |
| Scenario.SendOptionsReachTheServer | dsltest/src/ast.rs:106-114 | through to_json and send each override is the last value written, absent if none was |
| Scenario.WireFormat | dsltest/src/ast.rs:74-121 | the object sent has a field under its own name for each option given, with its value, and no other |
| Choice.CommandsAreDisjoint | dsltest/src/parser.rs:99-114 | on any text at most one of the eleven command parsers succeeds |
| Choice.CommandOrderIsIrrelevant | dsltest/src/parser.rs:99-114 | trying them in any order gives the same result |
| Choice.AssertsAreDisjoint | dsltest/src/parser.rs:213-244 | at most one assert alternative succeeds, also for variables named queue or exactly_one_claimed |
| Choice.AssertOrderIsIrrelevant | dsltest/src/parser.rs:215 | their order is irrelevant |
| Choice.ChecksAreDisjoint | dsltest/src/parser.rs:258-264 | at most one check alternative succeeds |
| Choice.CheckOrderIsIrrelevant | dsltest/src/parser.rs:258-264 | their order is irrelevant |
| Choice.UnitsOverlapOnlyInM | dsltest/src/parser.rs:311-319 | the only overlap of units is m inside ms; the longer is read first, and m alone counts minutes |
| ScriptParser.ParseScenario | dsltest/src/parser.rs:21-54 | the line loop computes the specified parse |
| ScriptLines.BodyOutcome | dsltest/src/parser.rs:25-49 | after the header a parse succeeds exactly if every line that says something parses; else the error is that of the first one that does not |
| ScriptLines.FileOutcome | dsltest/src/parser.rs:32-52 | a file is silent and fails with line 0, or its first line that says anything is the header and decides |
| ScriptLines.LinesIncrease | dsltest/src/parser.rs:25-48 | statement lines strictly increase and are lines of the file |
| ScriptLines.SilentLinesAreTransparent | dsltest/src/parser.rs:28-30 | putting in or taking out a blank or comment line before any line shifts later line numbers by one and changes nothing else, errors included |
| ScriptLines.ErrorNamesTheFirstBadLine | dsltest/src/parser.rs:69-81 | an error after the header names the first line that does not parse |
| Layout.MarginsAreTransparent | dsltest/src/parser.rs:25-30 | white space before or after any line changes nothing of a parse, errors and line numbers included |
| Layout.LastMarginIsTransparent | dsltest/src/parser.rs:25-30 | the same for a last line without a line feed |
| Layout.LinesOfText | dsltest/src/parser.rs:25 | lines end with a line feed, and the last one need not |
| Layout.SilentExactly | dsltest/src/parser.rs:28-67 | a line says nothing exactly if it is all white space or its first other character is a # that no digit follows |
| Wording.SendIsPush | dsltest/src/parser.rs:148 | send reads as push, whatever follows |
| Wording.FetchIsConsume | dsltest/src/parser.rs:176 | fetch reads as consume |
| Wording.CompleteIsAck | dsltest/src/parser.rs:200 | complete reads as ack |
| Wording.BlanksRead | dsltest/src/parser.rs:12 | words are separated by any number of blanks and tabs |
| Wording.NoPrefixIsClientOne | dsltest/src/parser.rs:93-97 | a statement without a prefix is for client 1 |
| Wording.ColonIsOptional | dsltest/src/parser.rs:279-284 | the colon of the header may be missing |
| Wording.HeaderWithMore | dsltest/src/parser.rs:37-42 | anything else after the name is an error of that line |
| Wording.UnknownQueueOption | dsltest/src/parser.rs:3-8 | an option that is not known is not skipped but makes its line an error of trailing input |
| Wording.NameLetters | dsltest/src/parser.rs:286-290 | the ASCII characters of names are letters, digits, underscore and hyphen |
| Wording.NumbersHaveBits | dsltest/src/parser.rs:93-319 | integers are read up to 64 bits with a sign, durations up to 64 bits, client numbers up to 32, and no further |
| Wording.StateWords | dsltest/src/parser.rs:292-302 | all six states can be named |
| Wording.LastPayloadCounts | dsltest/src/parser.rs:163-171 | of several payloads of a push the last counts; without any it is an empty object |
| RoundTrip.IntegerRead | dsltest/src/parser.rs:304-309 | every 64-bit integer is read back from its decimal text |
| RoundTrip.DurationRead | dsltest/src/parser.rs:311-319 | every representable duration is read back |
| CommandRoundTrip.CommandRead | dsltest/src/parser.rs:120-273 | every well-formed command is read back from its text, nothing left over |
| ScriptRoundTrip.StatementRead | dsltest/src/parser.rs:87-97 | the same with the client prefix |
| ScriptRoundTrip.ScriptRead | dsltest/src/parser.rs:21-54 | parsing the canonical text of a well-formed scenario gives its name, clients and commands, with lines as printed |
| Canonical.ParsedOk | dsltest/src/parser.rs:25-53 | whatever the line loop accepts is well formed |
| Canonical.ParsedScriptsAreCanonical | dsltest/src/parser.rs:21-54 | printing and parsing again what was parsed changes only line numbers |
| Runner.CollectQueues | dsltest/src/runner.rs:425-444 | exactly the queues the scenario mentions, without duplicates |
| Runner.ExactlyOneClaimed | dsltest/src/runner.rs:288-305 | the counting loop yields 1 if and only if every variable is bound and exactly one position holds a job |
| Runner.VariableChecks | dsltest/src/runner.rs:233-305 | the checks of variables spelled out: when each holds, fails, or lacks a job |
| Runner.QueueChecks | dsltest/src/runner.rs:169-186 | a queue is empty, or has size n, exactly if no row, or n rows, of it are created or retry |
| Runner.JobChecks | dsltest/src/runner.rs:187-277 | gone, ack, data and state of a job spelled out on its row |
| Runner.TouchedAreNamed | dsltest/src/runner.rs:425-444 | the touched queues are exactly those its queue commands name |
| Runner.Runner.ExecSpawn | dsltest/src/runner.rs:112-123 | a spawn never fails; it starts one consumer on the queue and detaches one exactly if its variable was still pending |
| Runner.Runner.ExecAwait | dsltest/src/runner.rs:124-140 | an await succeeds exactly if the variable was pending and its consumer ended without an error; then it binds what that consumer claimed |
| Runner.Runner.ExecConsume | dsltest/src/runner.rs:95-111 | a consume claims as consume_wait does, one job, which it binds; it fails the check only after its deadline with every fetch in vain, and then does nothing |
| Runner.Runner.ExecOutcome | dsltest/src/runner.rs:141-168 | ack and fail complete or fail exactly the bound job with the output given, and fail the check only if it is not active |
| Runner.Runner.ExecCheckAck | dsltest/src/runner.rs:209-232 | the polling loop ends; it succeeds only on a completed job and fails the check only after the time is up on one that is not |
| Runner.Runner.Exec | dsltest/src/runner.rs:68-308 | each command does to the tables exactly what it says, in its own words in Effect, and nothing if it fails; what is pending and what is detached follows the variables; errors carry line 0 or its own |
| Runner.Runner.ExecPush | dsltest/src/runner.rs:86-94 | a push that succeeds inserts one fresh job, every column of which is what the line says or the queue's default |
| Runner.Runner.ExecMaintain | dsltest/src/runner.rs:82-85 | a successful maintain leaves no finished row past keep_until and no active row that overran, and every other row unchanged |
| Runner.Runner.ExecLook | dsltest/src/runner.rs:169-305 | a check holds, fails, or asks for a job its variable does not hold; it succeeds only if what it asserts is so, and fails only if it is not |
| Runner.Runner.JoinAllPending | dsltest/src/runner.rs:347-351 | afterwards nothing is pending and only detached consumers run |
| Runner.Runner.CleanupQueues | dsltest/src/runner.rs:339-345 | does nothing but drop the named queues, and drops every one of them if its calls go through |
| Runner.GoneOrReopened | dsltest/src/runner.rs:339-345 | after a cleanup that went through a queue is gone with its jobs, or somebody else has created it since |
| Runner.Runner.RunStatements | dsltest/src/runner.rs:51-60 | executes the statements in order, all earlier ones successfully, up to the first that fails, whose error it returns with the line filled in, and none after it; a consumer is detached exactly if an executed spawn reused a pending variable |
| Runner.Runner.RunScenario | dsltest/src/runner.rs:45-66 | passing or failing at any statement, with consumers, other clients and the maintenance worker at work: it did nothing but drop the touched queues, execute its statements up to the first that fails, and drop the queues again; only detached consumers still run, none exactly if no executed spawn reused a pending variable; if the last cleanup goes through every touched queue is gone unless somebody else created it again; all else in the tables is what others and maintenance alone would have made of it |

## Left out

- PostgreSQL itself, SPI, pgrx, configuration variables and the background worker's process: `maintain` may run at any time instead.
- Connections, pools, TLS and query errors: a call of the runner succeeds or fails as its environment says; in `Wakeups` a session may end at any point.
- A connection that breaks after the server committed a claim: a consumer that ends with an error has claimed nothing.
- JSON text, floating-point numbers, md5 and uuid generation: parameters, opaque values and fresh ids. The round trips ask of JSON text that it is one line without outer white space and parses back.
- Timestamps given as text in `startAfter`: modelled as a resolved instant.
- Alphanumeric characters beyond ASCII: a parameter, assumed not to be white space.
- Minute durations wrap in 64 bits as in a release build; a debug build panics there.
- The parser's cursor, moved in place by every sub-parser: the model returns the rest of the text. Backtracking to the saved cursor is therefore implicit.
- The index is kept per queue name, its leading equality column, not as one tree.
- The order in which RETURNING lists claimed rows: the claimed set is modelled, as SQL promises no more.
- Equal notifications within one transaction are delivered once by the server; the inbox counts each, which only wakes a worker more often.
- Two versions of a queue row with equal columns are taken for the same version when a deletion re-checks it.
- Error messages, exit codes, file collection, `get_queues`, and whether handlers ever return.
- Client.Drain: the other sessions do finitely many operations, each taking effect as a whole between the loop's own steps; transactions that interleave with the worker's are the subject of Wakeups.
- Runner.Runner.ExecSpawn: a spawned consumer claims any due job of its queue or none, at any time; the loop it runs is proved in Consumer, which of several due jobs it gets depends on the locks of the others.
- Runner.Runner.RunScenario: a runner is used for one scenario, as dsltest/src/main.rs:66-73 does.

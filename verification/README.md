# RelayQ in Dafny

A Dafny 4.11 model of RelayQ, an at-least-once job queue on Redis Streams, and proofs about it.
`dafny verify dfyconfig.toml` checks everything.

## What is modelled

| File | What it holds |
|---|---|
| `Outcomes.dfy`, `Jobs.dfy`, `Codec.dfy` | jobs, their dictionary form, the decoding loop |
| `Redis.dfy` | one queue's stream, consumer group and dead-letter stream, and the commands used on them |
| `Protocol.dfy` | the delivery protocol as a state machine: 17 kinds of step, runs as sequences of steps |
| `NoLoss.dfy`, `Capacity.dfy`, `Outbox.dfy` | what holds in every reachable state of every interleaving |
| `Transport.dfy` | the Redis transport and the SQLite store as objects that change in place |
| `Site.dfy` | the shared world of the application objects, with a record of all steps taken in it |
| `Execute.dfy`, `Enqueue.dfy`, `Consume.dfy`, `Recover.dfy` | the application's methods, proved to take exactly the protocol's steps |
| `TokenBucket.dfy`, `Breaker.dfy` | the rate limiter's script and the circuit breaker's window |
| `Pool.dfy`, `Runner.dfy` | the worker's poll loop, bulkhead and shutdown over that shared world: state machine and object |
| `Retry.dfy`, `Budget.dfy`, `Keys.dfy` | delays; the retry budget; the key layout and the listing of queues |

Two layers meet in `Site`. The protocol is a step relation over values (`Enabled`, `Apply`, `Run`,
`After`), and theorems are about all runs. The application's methods change objects; every await in
them lets the other parties take any steps of the protocol, given as a schedule. A method is specified by
a `Course`, its own steps with its awaits between them, and its postcondition says that the record of all
steps has grown by exactly what `Unfold` makes of that course and the schedules. So `Executor.Execute`,
whatever others do at its awaits, takes the steps of `Script` in that order, with those awaits, and
every theorem about runs applies at every point of every method. The worker is a state machine over the
same shared state: its polls are the protocol's reads, its tasks take the protocol's delivery steps, and
`Pools.Projects` proves that each of its runs is a run of the protocol.

Invariants follow the data. `NoJobLost` is proved by following, for each entry, a token that stands for
it (an entry or a dead-letter record) through every step; parking and replay pass it on, and no two
entries come to share one unless one is the replay of the other. The token bucket's counter is tied to
a rule that re-reads the whole history. The slack in MAXLEN is proved exact by building, for every depth
limit, the run that defeats one more concurrent call.

An entry's id is its position in the stream. Redis is modelled with the semantics the code assumes:
`>` reads advance the group's cursor, XACK only removes from the pending list, `MAXLEN ~` trims lazily
and never below its limit, and XAUTOCLAIM looks at no more than ten times COUNT pending entries. A lost
reply leaves a command applied or not. A crash or a cancellation halts a call or a delivery at any await.
Clock readings, random draws, handler outcomes and command outcomes are parameters.

## Where the code and its documentation differ

The model follows the code.

* QueueFull is documented as backpressure to retry after a delay (relayq/domain/errors.py:12-13). XACK
  does not shorten a stream and nothing deletes from it, so an enqueue is refused if and only if
  max_queue_depth jobs were ever appended, whatever has become of them (`RefusedIff`). A full queue refuses
  every later enqueue of the run (`FullForGood`), also when every job has been acknowledged and nothing
  waits (`DrainedStillRefuses`), and with at most N calls past their check a queue accepts at most
  max_queue_depth + N - 1 jobs in its whole life (`LifetimeBound`).
* The stream body is never rewritten, so redelivery starts from the count the job was enqueued with.
  A failing delivery is dead-lettered if and only if that count was already at max_retries
  (`DlqDecisionIsFixed`); a job enqueued with budget left never reaches the dead-letter stream however
  often it is delivered (`BudgetLeftNeverDeadLettered`). The documented budget is met by a chain that
  carries the count forward (`ChainSpendsTheBudget`).
* Recovery changes who holds an entry and logs it; it does not run it. It always scans from the front, and
  only so far, so a stale entry behind enough fresh ones is out of its reach (`AutoclaimStale`).
* Replay assigns a plain string to `job.status`, which serialising rejects, so no replay succeeds
  (`ReplayDlqJob`). With a store none would succeed with a proper status either: the dead letter's own row
  is still there and the PRIMARY KEY refuses the insert (`ReplayNeverInserted`). Exactly, a replay succeeds
  if and only if its record is among the 200 newest, the status is a member of the enumeration, there is no
  store, the stream is below the depth limit when the call checks it, and the replies arrive (`Replay`).
* A status that is not one of the five, or a garbled timestamp, raises ValueError, which the read loop does
  not catch: the whole batch stays claimed and unexecuted. An entry without an id is only skipped, whatever
  else is wrong with it (`DecodingMeans`, `DecodeBatch`).
* COMPLETED is written even if XACK failed, and DEAD even if the dead-letter write failed. Both still
  tell the truth (`CompletedIsTrue`, `DeadIsTrue`).
* Status updates are never committed. Each leaves a transaction open, so until the connection is lost
  every insert is refused (`OpenIff`, `OpenUpdateBlocksInserts`), and then every status written is gone and
  the rows are as they were inserted (`UpdatesDoNotSurvive`).
* Idempotency keys and job ids are enforced if and only if the enqueuer has a store
  (`KeysEnforcedIffStore`). The API builds its enqueuer without one (api/main.py:48), so there the
  documented 409 does not happen.
* A job is lost only by being evicted while it waits (`LostOnlyByEviction`). The slack of 1000 keeps every
  job if and only if at most 1001 enqueue calls are past their depth check at once (`SlackIsExact`).
* A retry delay is within [0, cap], as documented, if and only if the cap is not negative and the base is
  not either, unless max_attempts is 0 or less (`DelayInRangeIff`).
* Queue listing splits keys at colons; with a colon in the prefix every queue is listed under the same
  name (`StreamKeySplits`, `ListingExactIff`).
* The breaker's pruned window and the full history disagree only at the instant of the last prune, on
  the boundary score (`CountsAgreeIff`, `DecisionsAgreeIff`).
* A rejected call to the rate limiter is invisible unless the clock stepped back (`RejectionInvisibleIff`).

## Model

| member | source | states |
|---|---|---|
| Codec.RoundTrip | relayq/domain/job.py:53-80 | a job can be written if and only if its status is a member of the enumeration, and what is written reads back as the same job, whatever the clock says |
| Codec.ReadWriteRead | relayq/domain/job.py:66-80 | anything that decodes can be written again, and decodes to the same job: defaults are filled in once |
| Codec.AbsentFieldsAreNew | relayq/domain/job.py:43-80 | every field absent from a dictionary reads as the default the constructor gives it |
| Codec.DecodingMeans | relayq/domain/job.py:66-80 | an entry without an id is a KeyError; one with an id is a ValueError if and only if its status text is none of the five names or its timestamp is garbled; any other is read field by field as it stands, with the constructor's defaults for what is absent |
| Codec.DecodeBatch | relayq/infrastructure/redis_stream.py:141-168 | the batch raises if and only if some entry has an id and a status text outside the five or a garbled timestamp; otherwise it returns exactly the parsed entries that have an id, in order, malformed ones among them dropped, each field read as it stands |
| Codec.WrittenDecode | relayq/infrastructure/redis_stream.py:141-168 | a batch of entries the queue wrote raises nothing and comes back complete, in order and unchanged |
| Redis.PartitionedAsSets | relayq/infrastructure/redis_stream.py:135-177 | the entry ids split exactly into undelivered, pending, acknowledged and evicted unseen; the last is empty while nothing has been trimmed |
| Redis.XAddPartitioned | relayq/infrastructure/redis_stream.py:79-100 | appending keeps the partition and adds exactly the new id to the undelivered |
| Redis.EnsureGroupKeepsAll | relayq/infrastructure/redis_stream.py:57-70 | creating the group again never rewinds it, and a group created late has every entry ahead of its cursor |
| Redis.HandedIsOldest | relayq/infrastructure/redis_stream.py:135-137 | a read takes the oldest undelivered entries still in the stream, as many as asked for while there are any, in order |
| Redis.ReclaimsOldest | relayq/infrastructure/redis_stream.py:198-200 | what one reclaim takes has been idle for at least min_idle, is at most count, and leaves an id idle for that long only behind count taken ones or ten times count pending ones |
| Redis.XReadGroupMoves | relayq/infrastructure/redis_stream.py:135-168 | a read moves exactly what it hands out from undelivered to pending, under one owner, and touches nothing acknowledged |
| Redis.XAckMoves | relayq/infrastructure/redis_stream.py:170-177 | XACK moves one id from pending to acknowledged, if it was pending, and delivers or undelivers nothing |
| Redis.XAutoclaimMovesLeases | relayq/infrastructure/redis_stream.py:198-220 | reclaiming keeps the set of pending ids and changes only the owners and idle times of the ids it takes |
| NoLoss.AlwaysSound | relayq/application/execute.py:65-205 | in every reachable state the ids are partitioned, every acknowledged entry succeeded or was parked, and each delivery's copy of its job matches its entry and program point |
| NoLoss.CoverStep | relayq/application/execute.py:153-156 | every step that evicts nothing hands what stands for a job on: parking to the new record, replay to the new entry |
| NoLoss.LostOnlyByEviction | relayq/application/execute.py:95-156 | in every reachable state of every run each appended entry is followed to something that stands for it, or to an entry that was evicted while no worker held it and none had succeeded |
| NoLoss.NoJobLost | relayq/application/execute.py:95-156 | without eviction, each appended entry, followed through parking and replay, waits, is pending, has had a handler run return normally, or has a live dead-letter record of the same work |
| NoLoss.FollowCovers | relayq/application/execute.py:95-156 | what each entry is followed to is the same work, and is neither acknowledged without a success nor dropped without a replay |
| NoLoss.OneTokenPerJob | api/main.py:485-494 | two entries are followed to the same thing only if one was appended as the replay of the record the other had been followed to, whatever ids the jobs have |
| NoLoss.AckComesAfterItsReason | relayq/application/execute.py:97-121 | every XACK of every run is preceded, in the same delivery, by a normal handler return or a successful dead-letter append |
| NoLoss.AckedEntryWasHandled | relayq/application/execute.py:120-156 | an acknowledged entry was acknowledged by a delivery of that entry which first returned normally or dead-lettered it |
| NoLoss.AbandonedEntryStays | relayq/application/execute.py:75-121 | however an execution ends (timeout, exception, cancellation, crash, at any await), its entry is still pending unless some delivery of it was justified and then acknowledged |
| NoLoss.EffectsLast | relayq/application/execute.py:95-156 | whatever follows in the run, at its end an entry acknowledged at some step is acknowledged, a job dead-lettered at some step has its record with the count one higher, and an entry whose handler returned counts as succeeded |
| NoLoss.OkEntryReturned | relayq/application/execute.py:96-98 | an entry counts as succeeded only if a delivery of it returned normally earlier in the run |
| NoLoss.CursorOnlyAdvances | relayq/infrastructure/redis_stream.py:57-70 | between any two points of a run the group's cursor does not go back |
| NoLoss.HandedOutOnce | relayq/infrastructure/redis_stream.py:135-168 | no two reads of a run, by whichever workers, hand out the same id |
| NoLoss.LogEncodable | relayq/infrastructure/redis_stream.py:92-99 | every job on the stream of a reachable state has a status that serialises |
| Capacity.CrowdStep | relayq/application/enqueue.py:78-80 | a step admits one call while the stream is below the limit, turns one call past its check into an entry, or does neither |
| Capacity.AlwaysEvictedOnlyWhenFull | relayq/infrastructure/redis_stream.py:94-99 | in every reachable state nothing has been evicted, or the stream is still at least max_queue_depth + 1000 long |
| Capacity.RefusedIff | relayq/application/enqueue.py:78-80 | in every reachable state an enqueue is refused for depth if and only if max_queue_depth jobs were ever appended, whatever has been acknowledged, dead-lettered or evicted |
| Capacity.FullForGood | relayq/application/enqueue.py:78-80 | once the queue is full at some point of a run, every later enqueue of that run is refused |
| Capacity.DrainedStillRefuses | relayq/application/enqueue.py:78-80 | for every depth limit there is a run of one call at a time after which every job is acknowledged, nothing waits or is pending, and every enqueue is refused |
| Capacity.LifetimeBound | relayq/application/enqueue.py:78-117 | with at most N calls past their check at once, all jobs ever appended plus those calls never exceed max_queue_depth + N - 1 |
| Capacity.DepthBound | relayq/application/enqueue.py:78-117 | so stream length plus those calls never exceeds that bound either |
| Capacity.NothingEvicted | relayq/application/enqueue.py:115-117 | with N up to 1001, MAXLEN at max_queue_depth + 1000 never trims anything |
| Capacity.NoJobLostUnderLoad | relayq/application/enqueue.py:78-117 | so with N up to 1001 no job is ever lost |
| Capacity.OneTooMany | relayq/application/enqueue.py:115-117 | for every depth limit there is a run with 1002 such calls that evicts a job no worker has seen |
| Capacity.ClosedQueue | relayq/application/enqueue.py:78-80 | with a depth limit of 0 no call gets past its check and the stream stays empty |
| Capacity.SlackIsExact | relayq/application/enqueue.py:78-117 | every schedule with at most N calls past their check keeps every job if and only if N is at most 1001 (or the depth limit is 0 and nothing gets in) |
| Outbox.OutboxFirst | relayq/application/enqueue.py:102-117 | with a store, every job on the stream has the row it was inserted with, and every dead-letter record has a row |
| Outbox.OrphanRows | relayq/infrastructure/sqlite_store.py:166-181 | a row has no stream entry if and only if its enqueue call stands or stopped between commit and XADD |
| Outbox.OneAppendPerKey | relayq/infrastructure/sqlite_store.py:74-77 | at most one call per job id, and at most one per idempotency key, ever reaches XADD |
| Outbox.NoDuplicateEntries | relayq/application/enqueue.py:85-104 | no two entries of the stream share a job id or a key |
| Outbox.InsertRefusedIff | relayq/infrastructure/sqlite_store.py:74-107 | in every run with a store a call is refused at its insert if and only if the insert fails, a status update is open, its status has no value, or another call of the run went in with the same id or the same key; otherwise it goes on |
| Outbox.LookupRefusedIff | relayq/application/enqueue.py:85-90 | in every run with a store a call is refused at its lookup if and only if it was given a key and another call went in with that key |
| Outbox.ReplayNeverInserted | api/main.py:490-491 | with a store no replay ever gets past its insert, in any run and with any status, because the dead letter's row is still there |
| Outbox.LosersTouchNothing | relayq/application/enqueue.py:78-104 | a call that ends refused changes neither Redis nor the table at any of its steps |
| Outbox.KeysEnforcedIffStore | relayq/application/enqueue.py:102-110 | ids and keys are unique on the stream in every run if and only if a store is configured (or the depth limit is 0 and nothing gets in) |
| Outbox.BothAppended | relayq/application/enqueue.py:105-117 | without a store any two jobs can both be appended, whatever their ids and keys |
| Outbox.AlwaysCommitted | relayq/infrastructure/sqlite_store.py:166-181 | in every reachable state the committed table has the same jobs as the visible one, each with the status and count it was inserted with, and the two differ only while a status update is uncommitted |
| Outbox.OpenIff | relayq/infrastructure/sqlite_store.py:109-122 | in every reachable state a transaction is open if and only if a status has been written since the connection was last lost |
| Outbox.OpenUpdateBlocksInserts | relayq/infrastructure/sqlite_store.py:109-122 | from a status update on, until the connection is lost, the transaction stays open and nothing more is committed |
| Outbox.UpdatesDoNotSurvive | relayq/infrastructure/sqlite_store.py:109-122 | losing the connection keeps every row and puts it back to the status and count it was inserted with |
| Outbox.AlwaysTruthful | relayq/application/execute.py:82-205 | in every reachable state a status other than the inserted one is backed by what happened |
| Outbox.SettleWrites | relayq/application/execute.py:133-205 | the last update of a delivery changes its own row alone: COMPLETED and DEAD leave the attempts column as it was, FAILED sets it to the delivery's count |
| Outbox.CompletedIsTrue | relayq/application/execute.py:133-135 | a row that became COMPLETED belongs to a job whose handler returned normally earlier in the run |
| Outbox.DeadIsTrue | relayq/application/execute.py:149-178 | a row that became DEAD belongs to a job a delivery of which failed with attempts above max_retries, and the job is not lost although the dead-letter write may have failed |
| Outbox.DeadLetterSource | relayq/application/execute.py:146-155 | every dead-letter record is a copy, with the count one higher, of an entry whose stored count was already at max_retries |
| Outbox.DlqDecisionIsFixed | relayq/application/execute.py:146-191 | a failing delivery takes the dead-letter branch if and only if its entry was enqueued with attempts at or above max_retries, however often it was delivered before |
| Outbox.BudgetLeftNeverDeadLettered | relayq/domain/job.py:82-84 | if every job was enqueued with budget left, the dead-letter stream stays empty |
| Transport.RepliesAreComplete | relayq/infrastructure/redis_stream.py:141-168 | a reply made of entries the queue wrote decodes to exactly those entries, in order, each with its job as enqueued |
| Transport.RedisStreamTransport.EnsureGroup | relayq/infrastructure/redis_stream.py:57-70 | creates the group at id 0 or, if it exists, does nothing |
| Transport.RedisStreamTransport.StreamLength | relayq/infrastructure/redis_stream.py:72-75 | returns the number of entries ever appended less those trimmed |
| Transport.RedisStreamTransport.XAdd | relayq/infrastructure/redis_stream.py:79-100 | appends at the end under the trimming rule, with the job's encoding as the body, if the job serialises; else changes nothing |
| Transport.RedisStreamTransport.XAddDlq | relayq/infrastructure/redis_stream.py:102-115 | appends to the dead-letter stream if the job serialises, else changes nothing |
| Transport.RedisStreamTransport.ReadGroup | relayq/infrastructure/redis_stream.py:119-168 | whatever the bodies hold: without a group it raises and changes nothing; otherwise it performs the read and returns the claimed entries that have an id, in order and as they stand, or raises with all of them claimed if one of these has a status or timestamp that does not decode |
| Transport.RedisStreamTransport.XAck | relayq/infrastructure/redis_stream.py:170-177 | acknowledges a pending id and says whether it was pending |
| Transport.RedisStreamTransport.AutoclaimStale | relayq/infrastructure/redis_stream.py:179-220 | takes, in order, at most count leases, each idle for at least min_idle; leaves one that is idle for that long only behind count taken ones or ten times count pending ones; leaves every other lease alone, and decodes as a read does |
| Transport.RedisStreamTransport.ScanStale | relayq/infrastructure/redis_stream.py:198-205 | the scan from the front finds exactly those ids, in increasing order |
| Transport.RedisStreamTransport.ReadDlqEntry | relayq/infrastructure/redis_stream.py:245-262 | returns the newest live record of that job; finds nothing if and only if none is among the 200 newest |
| Transport.RedisStreamTransport.DeleteDlqEntry | relayq/infrastructure/redis_stream.py:264-267 | deletes that record and nothing else |
| Transport.SqliteStore.FindByIdempotencyKey | relayq/infrastructure/sqlite_store.py:143-149 | finds a row exactly when the key is taken |
| Transport.SqliteStore.InsertOutbox | relayq/infrastructure/sqlite_store.py:81-107 | inserts exactly when the status has a value, no row has that id and no row has that key; otherwise leaves the table alone |
| Transport.SqliteStore.InsertInTransaction | relayq/infrastructure/sqlite_store.py:166-181 | refused while another transaction is open; otherwise all or nothing, also when a later step fails, and what is committed is what the connection sees |
| Transport.SqliteStore.UpdateStatus | relayq/infrastructure/sqlite_store.py:109-122 | overwrites status, and attempts if given, of an existing row in the visible table only, inserts none, and leaves a transaction open |
| Site.Site.Await | relayq/application/execute.py:96-98 | exactly the steps of the schedule that are enabled when their turn comes take place, none of them the caller's; the state stays reachable, the caller's own record stays the same and history only grows |
| Site.AllTakePlace | relayq/application/execute.py:96-98 | a schedule whose steps can all follow each other takes place as a whole at an await |
| Site.OwnUnfold | relayq/application/execute.py:75-77 | of everything that happens along a course, the caller's own steps are those of the course, in order |
| Execute.Executor.Execute | relayq/application/execute.py:65-205 | under every schedule of the others, what happens from call to end is exactly the script: this execution's steps in order and, at each await, the steps the others take then; at the end the entry is acknowledged if its XACK reached Redis, the job with its new count is dead-lettered if the append did, and a normal return counts as a success; its exit and the status it leaves in the outbox are those of the branch taken |
| Execute.ScriptSteps | relayq/application/execute.py:65-205 | the steps of one execution: it acknowledges if and only if the handler returned, or failed with attempts at max_retries or above and the dead-letter append is known to have succeeded; it appends a dead letter if and only if it failed with the budget spent; it is halted if and only if a cancellation reaches the handler or a command it waits for, and settles its row if and only if it is not halted |
| Execute.ExitMeans | relayq/application/execute.py:65-205 | it exits cancelled exactly when it was halted, left for a retry exactly when it failed with budget left, completed exactly when the handler returned and the XACK was not cancelled |
| Execute.Executor.Conclude | relayq/application/execute.py:96-140 | normal return leads to acknowledgement, timeout and exception to failure handling, cancellation to neither, each with its awaits |
| Execute.Executor.Start | relayq/application/execute.py:82-90 | starts a delivery; its row, if any, becomes PROCESSING with the stored count when the update succeeds |
| Execute.Executor.NoteReturn | relayq/application/execute.py:96-98 | a normal return makes the delivery able to acknowledge and counts its entry as succeeded |
| Execute.Executor.Acknowledge | relayq/application/execute.py:120-137 | XACK first, then the final status, also if XACK failed; a cancellation skips the status |
| Execute.Executor.SendAck | relayq/application/execute.py:120-131 | one XACK of this delivery's entry, applied or not |
| Execute.Executor.SettleAck | relayq/application/execute.py:133-137 | after the acknowledgement attempt the row becomes COMPLETED or DEAD according to the branch |
| Execute.Executor.HandleFailure | relayq/application/execute.py:142-205 | counts the failure, then dead-letters if the budget is spent or leaves the entry pending and the row FAILED |
| Execute.Executor.NoteFailure | relayq/application/execute.py:146-149 | raises the in-memory count by one and decides the branch from it |
| Execute.Executor.DeadLetter | relayq/application/execute.py:149-178 | dead-letter append before XACK; if the append raises, no XACK, but the row still becomes DEAD |
| Execute.Executor.AfterPark | relayq/application/execute.py:155-178 | XACK only if the append is known to have succeeded; if it raised, the row becomes DEAD without it; if it was cancelled, nothing more |
| Execute.Executor.ParkJob | relayq/application/execute.py:154-155 | appends a record of this delivery's job, applied or not, and always serialisable |
| Execute.Executor.Finish | relayq/application/execute.py:174-205 | writes COMPLETED, DEAD or FAILED to an existing row; sets its attempts for FAILED only, and changes no other row |
| Execute.Executor.Halt | relayq/application/execute.py:75-77 | a cancellation ends the delivery with one halting step |
| Execute.AlwaysEncodable | relayq/application/execute.py:154-155 | every job an execution holds can be serialised, so parking it does not fail for that reason |
| Budget.ChainSpendsTheBudget | relayq/application/execute.py:146-191 | executions of an always-failing job that carry its count forward: there are max_retries + 1 - attempts of them, each but the last exits leaving it for a retry, and the last dead-letters it |
| Budget.OverBudgetChain | relayq/domain/job.py:82-84 | a job that arrives over budget is dead-lettered by its first failing execution |
| Enqueue.KeyIsCarried | relayq/application/enqueue.py:85-86 | a key given by the caller replaces the job's own; an empty one counts as none; nothing else changes |
| Enqueue.Enqueuer.Enqueue | relayq/application/enqueue.py:54-125 | under every schedule of the others, what happens from call to end is exactly the script, awaits included: each of depth check, key lookup, insert and XADD is taken if and only if all before it went well; what stands against the call is a function of the starting state and the schedule; and it succeeds, or fails with that error, exactly as the script ends |
| Enqueue.Enqueuer.EnqueueMeasured | relayq/application/enqueue.py:78-125 | from the depth check on: exact steps, awaits and result; refused exactly when the length has reached the limit |
| Enqueue.Enqueuer.EnqueueUnchecked | relayq/application/enqueue.py:85-125 | from the lookup on: exact steps, awaits and result; a conflict ends the call with no further step |
| Enqueue.Enqueuer.EnqueueLookedUp | relayq/application/enqueue.py:102-125 | from the insert on: exact steps, awaits and result; a failed insert ends the call before XADD |
| Enqueue.Enqueuer.CheckQueueDepth | relayq/application/enqueue.py:78-80 | refuses exactly when the stream length has reached the limit |
| Enqueue.Enqueuer.LookUpKey | relayq/application/enqueue.py:85-90 | reports a conflict exactly when the call gave a key, there is a store and it has that key |
| Enqueue.Enqueuer.InsertRow | relayq/application/enqueue.py:102-104 | with a store, goes on exactly when the insert was not refused, did not fail and met no duplicate; without one, always |
| Enqueue.Enqueuer.AppendJob | relayq/application/enqueue.py:115-117 | the job is appended if and only if it serialises and the command reaches Redis, and the call succeeds if and only if the reply arrives as well |
| Enqueue.Enqueuer.SendAppend | relayq/application/enqueue.py:115-117 | the returned id is where the call's job now is on the stream |
| Enqueue.ScriptAppends | relayq/application/enqueue.py:54-125 | a call appends if and only if it is valid, the depth is known, nothing refuses it, the job serialises and the command reaches Redis; it appends once and never drops a record |
| Enqueue.FailureMeans | relayq/application/enqueue.py:54-125 | each error belongs to the steps the call has taken: QueueFull to the depth check alone, IdempotencyConflict to the lookup, InsertFailed to the insert, a call that appended nothing or lost the reply to a halt, and success to all four steps |
| Enqueue.FateMeans | relayq/application/enqueue.py:78-104 | what refuses a call: at the check the length of the stream, at the lookup a row with the key it was given, at the insert a failure, an open update, a status without a value, or a row with its id or key |
| Enqueue.Enqueuer.Replay | api/main.py:480-496 | reports not found, changing nothing, exactly when no record of the job is among the 200 newest; otherwise what happens is exactly the replay script; and it succeeds if and only if the record is found, the status is a member, there is no store, the length at its depth check is below the limit, and the replies arrive |
| Enqueue.Enqueuer.ReplayRecord | api/main.py:485-494 | enqueues the record's work, then drops the record if and only if that succeeded, exactly as scripted; success has the same condition, and then the job is on the stream and the record gone |
| Enqueue.Enqueuer.DropRecord | api/main.py:493-494 | the record is gone whenever the command reached Redis, and the call succeeds exactly when its reply arrives |
| Enqueue.ReplayVerdict | api/main.py:490-494 | the call goes through and the drop is confirmed if and only if the state at its depth check lets it through |
| Enqueue.StoredReplayFails | api/main.py:490-491 | with a store the enqueue of a replay fails, whatever the status, plan or schedule |
| Enqueue.FateWithoutStore | relayq/application/enqueue.py:78-105 | without a store only the depth can stand against a call |
| Enqueue.FailedReplayKeepsRecord | api/main.py:490-494 | whatever the status, a replay whose enqueue failed has not dropped the record, and has appended if and only if the XADD was carried out and its reply lost |
| Enqueue.ReplayRestoresBudget | api/main.py:486-488 | a replayed job is the same work with its whole budget: max_retries + 1 runs in a chain that carries the count |
| Enqueue.Enqueuer.ReplayDlqJob | api/main.py:485-491 | as coded, every replay fails, appends nothing and drops nothing, and is not found exactly when no record is among the 200 newest |
| Consume.Consumer.Join | relayq/worker/runner.py:85-85 | changes nothing but the group's existence, and a new group has everything appended before it still to deliver |
| Consume.Consumer.Poll | relayq/worker/runner.py:116-122 | without a group it raises; otherwise what it returns is everything the read claimed, in order and as enqueued, was never pending or acknowledged before, and a short poll leaves nothing waiting |
| Recover.RecoveryWorker.ClaimStale | relayq/application/recover.py:84-98 | takes the oldest leases idle for at least min_idle that the scan reaches, at most a batch, returns their jobs in order, and changes nothing else in the whole state |
| Recover.RecoveryWorker.RecoverLoop | relayq/application/recover.py:51-82 | runs until stopped; every round that reaches Redis and finds the group claims exactly once, where it begins, and the worker claims nowhere else; no claim moves a lease younger than min_idle, or more than a batch, or leaves an older one that the scan reaches; between rounds exactly what the others do happens |
| Recover.RecoveryWorker.RunRound | relayq/application/recover.py:72-82 | one round: the claim, if there is a group and unless the call raises before Redis carries it out, then exactly the enabled steps of the others |
| Recover.ClaimsMoveLeases | relayq/application/recover.py:84-98 | any claim in any run changes nothing in the whole state but the leases it names, which pass to the claiming worker with their idle time restarted |
| TokenBucket.TokenBucketRateLimiter.Allow | api/main.py:154-176 | the script's decision and new counter are those of the specification functions |
| TokenBucket.HeldIsLeastAllowance | api/main.py:165-169 | for non-decreasing call times the tokens held before a decision are the least, over all windows of the history ending there, of capacity plus refill minus admitted cost |
| TokenBucket.ScriptRefinesRule | api/main.py:168-175 | the constant-space script admits exactly the calls that the rule re-reading the whole history admits |
| TokenBucket.AnyClockBound | api/main.py:165-175 | under any clock the counter stays within [0, capacity], and admitted cost plus what is left never exceeds capacity plus rate times the forward clock steps |
| TokenBucket.RejectionInvisibleIff | api/main.py:172-175 | a rejected call leaves all later readings as they were if and only if the clock did not step back, the counter was full, or the rate is zero |
| TokenBucket.RejectedCallIsInvisible | api/main.py:172-175 | with a monotone clock, deleting a rejected call anywhere in a history changes no later decision, and after the next call not even the counter |
| Retry.Delay | relayq/domain/retry.py:35-52 | the cap from max_attempts on; before that the ceiling, scaled by the draw if there is jitter; never above the cap before jitter, and within [0, ceiling] for a non-negative base and cap |
| Retry.CeilingDoubles | relayq/domain/retry.py:40-47 | the delay backs off: the first is the base or the cap, whichever is less, each next one twice the one before up to the cap |
| Retry.ExponentialDoubles | relayq/domain/retry.py:43-44 | before the cap it is the base, doubled at every attempt, for every policy |
| Retry.DelayInRangeIff | relayq/domain/retry.py:36-52 | 0 <= delay <= cap for all attempts and draws if and only if the cap is not negative, and the base is not either unless max_attempts is 0 or less |
| Retry.CeilingMonotone | relayq/domain/retry.py:40-47 | the un-jittered delay is monotone in the attempt and within [0, cap], also across max_attempts and for negative attempts |
| Retry.MaxTotalWindow | relayq/domain/retry.py:54-63 | the loop's total is the sum of the delays the policy gives its attempts without jitter |
| Retry.UncappedIsPrefix | relayq/domain/retry.py:43-44 | the attempts not cut off by the cap are exactly the first k |
| Retry.WindowClosedForm | relayq/domain/retry.py:54-63 | that sum is base times (2^k - 1) plus cap for each of the remaining attempts |
| Retry.WindowBoundsDelays | relayq/domain/retry.py:49-63 | any jittered delays over the first attempts sum to at most the window over them |
| Retry.WindowBoundsEveryChain | relayq/domain/retry.py:54-63 | max_total_window bounds the total delay of every chain of at most max_attempts retries |
| Breaker.CircuitBreaker.RecordFailure | api/main.py:259-264 | the sorted set stays the pruned form of the history, one failure longer |
| Breaker.CircuitBreaker.MaybeTrip | api/main.py:281-289 | with a monotone clock that has moved since the last failure, trips if and only if the whole history has at least threshold distinct failure times in [now - window, now] |
| Breaker.CircuitBreaker.Reset | api/main.py:291-294 | forgets the history and closes |
| Breaker.PrunedMeans | api/main.py:259-264 | under any clock the set holds exactly the times that were recorded with no failure a whole window later from then on |
| Breaker.PrunedIsRecent | api/main.py:262-263 | with a monotone clock these are exactly the failure times younger than the window at the last failure |
| Breaker.PruningIsInvisible | api/main.py:281-285 | for any time from the last prune on, the pruned set and the full history hold the same in-window times, but for the boundary time at the very instant of the prune |
| Breaker.CountsAgreeIff | api/main.py:284-285 | the counts agree if and only if time has passed since the last prune or no failure lies on the boundary |
| Breaker.DecisionsAgreeIff | api/main.py:284-289 | the decisions agree unless a boundary failure at that instant makes exactly the threshold |
| Pools.Projects | relayq/worker/runner.py:71-159 | every run of a worker is, in the shared state, a run of the delivery protocol, so all its theorems hold at every step of the worker |
| Pools.BulkheadHolds | relayq/worker/runner.py:134-180 | at every step of every run free permits, permit holders and a permit in hand-over sum to max_concurrency; tracked tasks are the holders plus those whose callback is queued |
| Pools.AtMostOneLateRead | relayq/worker/runner.py:101-144 | in every run, after the step that requests shutdown at most one read is carried out for this worker, whether or not its reply arrives, and it claims at most poll_batch entries |
| Pools.ReadStep | relayq/worker/runner.py:116-129 | exactly the reads that Redis carries out, also those whose reply is lost or cut off, add what they were handed to what the worker has claimed, and once shutdown is requested the loop does not read twice |
| Pools.ClaimedIsHeld | relayq/worker/runner.py:116-159 | at every step, through failed polls, shutdown and cancellation, every entry this worker ever claimed is pending or acknowledged |
| Pools.ClaimedIsPendingOrHandled | relayq/worker/runner.py:146-159 | what it claimed and is no longer pending was acknowledged by a delivery of that entry that had first returned normally or dead-lettered the job |
| Pools.RepliesAreFresh | relayq/infrastructure/redis_stream.py:135-168 | a reply holds nothing this worker has claimed before |
| Pools.TasksStayApart | relayq/worker/runner.py:134-140 | the batch being dispatched is claimed, has no repetition and is with no task yet, and every task has an entry and a delivery of its own |
| Pools.OneTaskPerEntry | relayq/worker/runner.py:134-140 | no two tasks of a run execute the same entry |
| Pools.TasksStayOk | relayq/worker/runner.py:161-180 | a task's delivery is of its entry, and has ended once the task no longer holds its permit |
| Pools.LeftoverTasks | relayq/worker/shutdown.py:48-78 | a task still running when the worker has ended was in the drain's snapshot; if the drain ran to its end it was cancelled and has a handler that ignores that; if the drain was itself cancelled, it was cancelled unless the grace period was not over |
| Pools.StoppedIsQuiet | relayq/worker/shutdown.py:48-78 | if every handler responds to cancellation, then at the end no task and no delivery of this worker is under way, all permits are back, and everything it claimed is pending or acknowledged |
| Pools.QuietStaysQuiet | relayq/worker/runner.py:149-159 | from then on, whatever others do, that stays so and it claims nothing more |
| Runner.GroupStays | relayq/worker/runner.py:85-85 | after joining, the consumer group exists at every later point |
| Runner.WorkerRunner.RunWorker | relayq/worker/runner.py:71-159 | joins, loops and drains; everything that happens is exactly its own steps and, at each await, what the schedule brings; what still runs at the end was cancelled and ignores it, unless the drain was itself cancelled |
| Runner.WorkerRunner.RunLoop | relayq/worker/runner.py:100-159 | iterates turn by turn until the event is set, the loop is cancelled or the turns are used up, with exactly the awaits of each turn; everything its polls returned got one task each in order, unless it was cancelled, and while waiting for a permit only after a wait that brought none; then drains |
| Runner.WorkerRunner.RunTurns | relayq/worker/runner.py:101-144 | stops early only because the event is set or the loop was cancelled; each iteration's steps and awaits are those of its turn |
| Runner.WorkerRunner.Iterate | relayq/worker/runner.py:101-144 | exactly the admission check, then the poll if that passes, then the dispatch of what it returned, with the awaits after each; all that was returned is newly claimed |
| Runner.WorkerRunner.PollOnce | relayq/worker/runner.py:116-144 | a poll that raises or is cut off is one step and starts no task; one that replies is followed by the dispatch of its jobs |
| Runner.WorkerRunner.TakeReply | relayq/worker/runner.py:116-129 | the reply is what Redis hands out to this worker, becomes the batch, and holds nothing claimed before |
| Runner.WorkerRunner.DispatchAll | relayq/worker/runner.py:134-140 | the jobs of the batch get a task each, in order: all of them, unless a wait for a permit brought none and the loop is cancelled in it, and then the rest stays claimed |
| Runner.WorkerRunner.AwaitPermit | relayq/worker/runner.py:136-136 | goes on at once if a permit is free; otherwise waits exactly through the schedule, and ends with a granted permit or still waiting |
| Runner.WorkerRunner.SpawnNext | relayq/worker/runner.py:136-140 | one spawning step: the new task runs the first job of the batch, which loses it |
| Runner.WorkerRunner.Await | relayq/worker/runner.py:71-159 | exactly the enabled steps of the schedule take place; the loop's place, batch and tasks stay, a free permit stays free, and a set event stays set |
| Runner.WorkerRunner.DrainInflight | relayq/worker/shutdown.py:48-78 | waits out the grace period for exactly the tracked tasks, cancels those still running, waits again, and ends with none running but cancelled ones that ignore it; a cancellation of the drain ends it where it is |
| Runner.WorkerRunner.CancelRest | relayq/worker/shutdown.py:68-74 | one step that cancels exactly the tasks of the snapshot still running |
| Runner.WorkerRunner.UnwindAll | relayq/worker/shutdown.py:75-76 | afterwards every cancelled task that responds has released its permit, and nothing else of the loop has changed |
| Keys.KeysNeverCollide | relayq/infrastructure/redis_stream.py:43-50 | stream, group and dead-letter keys are injective in the queue name and pairwise disjoint, for any names and any prefix |
| Keys.StreamKeySplits | relayq/infrastructure/redis_stream.py:284-286 | with a colon-free prefix, splitting a stream key recovers the queue if and only if its name has no colon; with a colon in the prefix it gives the prefix's second piece for every queue |
| Keys.ValidNamesSplit | api/main.py:318-327 | every name the API accepts is recovered if and only if the prefix has no colon |
| Keys.QueuesIn | relayq/infrastructure/redis_stream.py:280-286 | for any prefix and names, one batch of scanned keys yields exactly the names its stream keys split into |
| Keys.SortNames | relayq/infrastructure/redis_stream.py:289-289 | the names of the set, each once, in increasing order: of two, the one with the smaller character where they first differ, or that ends there, comes first |
| Keys.ListQueues | relayq/infrastructure/redis_stream.py:271-289 | over a stable key set the listing is exactly the sorted names the stream keys split into, however the scan is split into batches and repeats keys |
| Keys.ListingExactIff | relayq/infrastructure/redis_stream.py:284-289 | the listing is exactly the queues with a stream if and only if neither the prefix nor any name has a colon, or the prefix has one and there is at most the one queue called like its second piece |

## Left out

- Several queues at once: state is that of one queue; `KeysNeverCollide` is why queues do not touch each other's keys.
- HTTP endpoints, middleware, the command line, process start-up, Docker, metrics and logging: no state the protocol depends on.
- Redis networking, byte decoding, JSON text and WAL: an entry holds a job or something malformed. Of SQLite's locking only this is modelled: one writer at a time, and a status update keeps its transaction open.
- Entries whose JSON is not an object or whose fields have the wrong type: like a bad status they raise what the decoding loop does not catch.
- The admission controller and the clock: an admission check is a yes or no, a clock reading a parameter.
- The distribution of the random jitter, and binary floating-point rounding: a draw is any number in [0, 1] and arithmetic is over the reals.
- Liveness of re-execution: the recovery loop does not run what it claims, and each claim starts again from the front, so nothing says that every stale entry is eventually reclaimed or run.
- Who executes a claimed entry: any entry that has been handed out may be executed any number of times, which covers every redelivery there is and more.
- Entries appended by other programs: the transport decodes whatever a stream holds, but in the protocol every entry was enqueued by this system.
- Two poll loops or two recovery loops under one worker id: a worker id names one of each.
- A task cancelled before its first step: the drain's waits let every task start, so its permit is always released.
- A dead-letter read or a key lookup that raises: it ends the call before anything is written, as an unknown depth does.
- XAUTOCLAIM dropping pending ids whose entry was trimmed: the theorems that speak of pending entries after eviction keep them.
- The breaker's half-open state and `is_open`: nothing calls them together with a success path, and their two keys are not updated atomically.
- Handlers that change the job they are given: a handler returns, raises, times out or is cancelled.
- A cancellation while the group is being joined: it ends the worker before it has claimed anything.
- A handler that responds to cancellation only after the five seconds `drain` waits for it: it counts as one that ignores it.
- Queue scans over a key set that changes meanwhile: `ListQueues` takes what the scan returned over a stable one.
- Reading a job back from the outbox and listing the dead-letter stream: plain reads.

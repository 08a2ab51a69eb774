# gh-pool, modelled in Dafny

This project models the protocol machines of gh-pool and proves what they keep over whole runs. Every stretch of code between two suspension points is one atomic step; messages, crashes, timeouts and database failures are steps that the environment may take at any moment. Where the source changes fields in place, a class does the same and each of its methods is proved against the specification function that the run theorems are about.

Check everything with `dafny verify dfyconfig.toml`.

## What is modelled

**Task pool** (`task_pool.dfy`, `task_ledger.dfy`, `task_history.dfy`, `task_effects.dfy`, `pool_server.dfy`, `task_page.dfy`, `task_log.dfy`). Queue, leases and statuses live in memory and the database lags behind. `TaskPool` is the transition system: a completion and a flush are each split at their `await`, and a failed flush may or may not have reached the database. `TaskLedger` is the plain task map without queue, dirty set, flush, lease or eviction; memory laid over the database always equals it. `TaskHistory` proves what follows over a server's life: one-way rows, exclusive leases, hand-out in arrival order, no lost wake-up, a database that is always an exact earlier state, recovery from a crash at any step, and exactly when a graceful shutdown saves everything. `TaskEffects` says what each action leaves behind in the fields of its task. `PoolServer.Pool` is the server's own state record. `TaskPage` shows that the listing is a newest page of memory over database. `TaskLog` runs the pool and the log of a leased task together.

**Log transfer** (`event_log.dfy`, `log_reader.dfy`). The worker's spool and sender, a network that loses, repeats, delays and reorders requests and loses replies, and the server's append, which a crash may tear. Then the reader that polls by offset and cuts the log into lines.

**Session protocol** (`session_log.dfy`, `session_posts.dfy`, `session_reports.dfy`, `event_stream.dfy`, `event_order.dfy`, `sse.dfy`, `event_wire.dfy`, `client_session.dfy`, `deciding.dfy`, `end_to_end.dfy`). The session's transactions and its event log; the hand-over from history to live events and the client's resumption across cuts and overflows; the printer and parser of server-sent events; and the settlement of the client's futures. `SessionPosts` is about the log as any reader sees it, with what the runner posted in it. `EndToEnd` runs database, stream and client together and says which event of the server's log a future is settled with; `SessionReports` takes that back to what the runner reported. `EventWire` shows that a connection, with its frames, pings and whatever text of it arrives, is the wire of the step relation.

**Shell channel** (`shell_channel.dfy`, `escape.dfy`). A bounded window over an unbounded log with one retrying writer, and the detach sequence.

**Tunnel** (`tunnel_wire.dfy`, `tunnel_relay.dfy`). The frame codec, and many streams on one socket with bounded queues and failure.

**Fleet keeper** (`fleet_keeper.dfy`). The reconcile tick with its budgets and its memory across ticks.

`options.dfy`, `numbers.dfy`, `chunks.dfy` and `sorting.dfy` hold what several of these share.

## Results that are not what one might expect

* A graceful shutdown can lose writes. It cancels the keeper wherever it is (`src/gh_pool/server/app.py:69-74`); cancellation is not an `Exception`, so a flush suspended in the database does not put its ids back (`src/gh_pool/server/pool/store.py:40-42`). `TaskHistory.ShutdownSavesAllIff` gives the exact condition, `TaskHistory.ShutdownCanLoseATask` a life in which a new task disappears.
* A reader that follows a log can stop before its end: the size is taken before the status (`src/gh_pool/server/tasks.py:225-241`), so bytes appended in between together with the end of the task are not asked for. `LogReader.StoppedHasAllIff` and `LogReader.StoppedCanMissTheTail`.
* A runner may post events of any kind at any time: `POST /{session}/events` takes the whole union and neither filters it nor looks at the status (`src/gh_pool/protocol/__init__.py:383-403`, `src/gh_pool/server/api_runner.py:107-111`, `src/gh_pool/core/sessions.py:323-325`). So one close, one start, one terminal event per command and silence behind the close are promised of the server's own events only (`SessionLog.WholeLog`, `SessionLog.OverMeansSettled`). For the log that is read, `SessionPosts.ClosedAtMostOnceIff`, `SessionPosts.StartedAtMostOnceIff`, `SessionPosts.OneEndIff`, `SessionPosts.QuietSinceIff` and `SessionPosts.SilentAfterTheEndIff` give the exact conditions, and `SessionPosts.RunnerCanPostAClose`, `SessionPosts.RunnerCanEndTwice` and `SessionPosts.RunnerCanSpeakAfterTheEnd` the inputs.
* What that does to a client: a close that comes early tells every pending command that the session is dead while the server still has it (`ClientSession.EarlyCloseMisleads`, `EndToEnd.MisledByAPost`). A posted terminal event is taken for the server's if it decides, and of the terminal events about a command the last before the answer to its submission decides, or else the first after it (`EndToEnd.SettledAsRecorded`, `EndToEnd.OwnOutcomeDecidesIff`).
* A client does not stop for good at a close. `_read_events` looks at `_finished` only when a stream ended by itself (`src/gh_pool/client/session.py:238-246`), so after a connection that broke it reads on, and a runner may have posted more (`src/gh_pool/core/sessions.py:323-325`). `EventStream.StopsAtACloseUntilACut` and `EventStream.ReadsOnAfterACut`.
* Delivery without gaps needs the after-commit hooks to run in commit order, which `src/gh_pool/core/db.py:60-66` does not force. With that order `EventStream.ExactlyOnce` holds; without it the client still processes strictly rising numbers over whole runs (`EventOrder.RisingInAnyOrder`), but an event can be left out, and then for good (`EventOrder.OutOfOrderSkips`, `EventOrder.LeftOutForGood`).
* A CLOSE that cannot be decoded reaches a reader as a decoding error and not as `TunnelDown` (`src/gh_pool/relay/tunnel.py:39-43`); before the head it brings the whole tunnel down. Every other failure surfaces as `TunnelDown`: `TunnelRelay.EndIff`, `TunnelRelay.FailureSurfaces`.
* The keeper adds a run to `stopping` before it asks for the cancel, so a cancel that the service refuses is not repeated while the run stays listed (`FleetKeeper.RefusedIsForgotten`).
* The repository's README (`README.md:193-195`) says that running tasks become `lost` when the server restarts. The code keeps them running without a lease, and the first token presented adopts them (`src/gh_pool/server/pool/store.py:72-74`, `src/gh_pool/server/pool/queue.py:47-48`). The model follows the code.

## Model

| member | source | states |
|---|---|---|
| TaskPool.StepKeepsInv | src/gh_pool/server/pool/store.py:20-79 | every step keeps: a pending task in memory is queued and no id is queued twice; memory and database differ on an id only while it is dirty or in flight; only running tasks hold leases; a blocked unsignalled worker faces an empty queue |
| TaskPool.BootInv | src/gh_pool/server/pool/state.py:34-45 | a booted server satisfies the invariant over any database and shows exactly that database |
| TaskPool.RequeuedHas | src/gh_pool/server/pool/store.py:68-76 | recovery queues exactly the pending rows that memory did not know |
| TaskPool.NextPending | src/gh_pool/server/pool/queue.py:69-72 | the position popped is the first queued id that is still pending |
| TaskPool.PassOverlooksNobody | src/gh_pool/server/tasks.py:60-71 | a pass of the long poll, with its clearing of the shared event, leaves nobody blocked unsignalled while ids are queued |
| TaskLedger.StepRefines | src/gh_pool/server/tasks.py:121-293 | every pool step is one operation of the plain task map, or nothing: rows agree and the queue is the tail of the arrivals before which nothing waits |
| TaskLedger.FlushIsInvisible | src/gh_pool/server/pool/store.py:20-63 | beginning, writing, finishing or failing a flush and lease bookkeeping change no look-up's answer |
| TaskLedger.NextIsOldest | src/gh_pool/server/pool/queue.py:67-72 | what the queue hands out, stale entries skipped, is the oldest waiting arrival of the map |
| TaskLedger.StepIsOnward | src/gh_pool/server/tasks.py:121-156 | an operation never changes who a task is or a finished row, and moves a status along one legal edge |
| TaskHistory.LifeRefines | src/gh_pool/server/pool/queue.py:34-40 | after every history of a server's life memory over database equals the map driven by the operations alone |
| TaskHistory.RowsMoveOnward | src/gh_pool/server/tasks.py:134-141 | between any two moments of a life rows only move forward and finished ones are fixed, also when the reaper or a duplicate completion acts while a completion is suspended |
| TaskHistory.EveryEdgeIsLegal | src/gh_pool/server/pool/keeper.py:32-44 | each step moves pending to running or cancelled, running to done, failed, cancelled or lost, or nothing |
| TaskHistory.LeaseStays | src/gh_pool/server/pool/queue.py:43-51 | a held or adopted token stays held until its task ends |
| TaskHistory.AcceptedHolds | src/gh_pool/server/pool/queue.py:47-51 | an accepted token is not empty and is or becomes the holder's, on a running task that was unleased or held by it; nothing else changes |
| TaskHistory.EndedRefuses | src/gh_pool/server/pool/queue.py:45-50 | no token is accepted on a finished task |
| TaskHistory.StrangersAreRefused | src/gh_pool/server/pool/queue.py:43-51 | once a token was held every other one is refused for the rest of the life, and all are refused after the end |
| TaskHistory.NobodyLostEarly | src/gh_pool/server/pool/keeper.py:32-41 | a task whose worker was heard from at some time is left alone by every reaper that comes no later than the limit after it, whatever happens in between |
| TaskHistory.QuietIsLost | src/gh_pool/server/pool/keeper.py:32-43 | a task whose worker was not heard from after some time has ended once a reaper came later than the limit after it, as lost if nothing else had ended it |
| TaskHistory.BeatStays | src/gh_pool/server/tasks.py:81-83 | a running task stays in memory and heard from until it ends |
| TaskHistory.HandedOutInOrder | src/gh_pool/server/pool/queue.py:69-80 | a task is handed out only when none that arrived before it still waits |
| TaskHistory.NoLostWakeUp | src/gh_pool/server/tasks.py:58-71 | a blocked unsignalled worker of a recovered server means that no task waits anywhere |
| TaskHistory.DatabaseIsASnapshot | src/gh_pool/server/pool/store.py:20-39 | at every moment the database is exactly what the server showed when the last flush that reached it began |
| TaskHistory.FlushedIsDurable | src/gh_pool/server/pool/store.py:53-63 | after a flush succeeds the database holds, for each task known when it began, that row or a later one, from then on |
| TaskHistory.CrashRecovers | src/gh_pool/server/pool/store.py:66-79 | a crash at any step and a recovery show one earlier state exactly; memory holds exactly its unfinished tasks, unleased, the running ones heard from at that moment, and each pending one is queued once |
| TaskHistory.ShutdownSavesAllIff | src/gh_pool/server/app.py:69-75 | the last flush of a shutdown stores everything if and only if no flush was cancelled, or it had been written, or each row it had sent is dirty again or equals the stored one |
| TaskHistory.ShutdownCanLoseATask | src/gh_pool/server/app.py:69-75 | a life and a task for which that condition fails |
| TaskEffects.CreateMakes | src/gh_pool/server/tasks.py:165-188 | a submission becomes a waiting row with exactly what was submitted, last in the queue, unless 50000 writes are waiting; then nothing changes |
| TaskEffects.RetryMakes | src/gh_pool/server/tasks.py:275-293 | a retry becomes a waiting row with the kind and payload of what the look-up found and that task as parent; if it found nothing, nothing changes |
| TaskEffects.FindAnswers | src/gh_pool/server/pool/queue.py:34-40 | a look-up succeeds exactly when the task is in memory or in a reachable database, with the row that is shown |
| TaskEffects.HandOutLeases | src/gh_pool/server/pool/queue.py:69-91 | the task that a lease call takes from the waiting ones runs under the token and worker of that call and is heard from at its time |
| TaskEffects.HandsOutWhileSomeWait | src/gh_pool/server/tasks.py:60-63 | a lease call returns with a task and stops waiting whenever any waits in memory |
| TaskEffects.WaitsForAnArrival | src/gh_pool/server/tasks.py:60-71 | a call that got nothing waits if its time is not up, signalled only if it has just come and an arrival was not yet taken; no other call is affected |
| TaskEffects.HolderIsAccepted | src/gh_pool/server/pool/queue.py:43-51 | the holder of a token is accepted up to the end of its task and refused from then on |
| TaskEffects.HeartbeatCounts | src/gh_pool/server/tasks.py:81-83 | an accepted heartbeat is when the running task was last heard from |
| TaskEffects.CompletionBegins | src/gh_pool/server/tasks.py:129-130 | a completion with an accepted token can go on and leaves its token on the task; a refused one changes nothing |
| TaskEffects.CompletionEnds | src/gh_pool/server/tasks.py:131-142 | the rest of a completion writes status, error and time over a running task for the three statuses a worker may report, and shows no other change |
| TaskEffects.CancelActs | src/gh_pool/server/tasks.py:251-267 | a cancel ends a waiting task, marks a running one and shows no other change |
| TaskEffects.ReapTakes | src/gh_pool/server/pool/keeper.py:32-43 | the reaper takes exactly the tasks running in memory that were last heard from more than 300 seconds ago |
| TaskEffects.FlushEvicts | src/gh_pool/server/pool/store.py:53-59 | a flush that succeeded lets go of exactly the tasks it took that are finished and were not touched since |
| TaskEffects.FlushStores | src/gh_pool/server/pool/store.py:22-63 | a flush that nothing comes between stores all that is shown and leaves nothing to store |
| TaskEffects.StoredMeansSmall | src/gh_pool/server/pool/store.py:53-59 | with nothing left to store a recovered server holds exactly the unfinished tasks in memory |
| PoolServer.Pool.constructor | src/gh_pool/server/pool/state.py:34-39 | a booted pool over a database |
| PoolServer.Pool.Announce | src/gh_pool/server/pool/store.py:77-78 | sets the arrival event and signals every waiter |
| PoolServer.Pool.Add | src/gh_pool/server/tasks.py:184-186 | a new pending task goes to memory, the end of the queue and the dirty set, and is announced |
| PoolServer.Pool.CreateTask | src/gh_pool/server/tasks.py:159-188 | refuses when overloaded and otherwise adds the pending row |
| PoolServer.Pool.Retry | src/gh_pool/server/tasks.py:270-293 | copies a task found in memory or database under a new id with its parent set |
| PoolServer.Pool.Grab | src/gh_pool/server/pool/queue.py:67-91 | pops until an id is still pending and leases that one: the answer is exactly the task that left the pending ones, and it carries the token; the step of the specification |
| PoolServer.Pool.LeasePass | src/gh_pool/server/tasks.py:60-71 | one pass of the long poll is the step of the runs: it answers with exactly the task that left the pending ones, under its token, and the call waits if there is none and its time is not up |
| PoolServer.Pool.Own | src/gh_pool/server/pool/queue.py:43-51 | the lease check with adoption; refuses exactly when the specification does |
| PoolServer.Pool.Heartbeat | src/gh_pool/server/tasks.py:75-87 | an accepted heartbeat sets the time and nothing else |
| PoolServer.Pool.BeginComplete | src/gh_pool/server/tasks.py:122-130 | the completion up to its await is the step of the runs, and it goes on exactly when the token is accepted |
| PoolServer.Pool.EndComplete | src/gh_pool/server/tasks.py:131-156 | the rest of it: refuses bad statuses, leaves finished tasks alone, otherwise ends the task and drops its lease |
| PoolServer.Pool.Cancel | src/gh_pool/server/tasks.py:246-267 | a pending task is cancelled, a running one marked, a finished one left, whether it was in memory or only stored |
| PoolServer.Pool.Reap | src/gh_pool/server/pool/keeper.py:31-45 | the loop ends exactly the running tasks quiet for too long, as lost |
| PoolServer.Pool.BeginFlush | src/gh_pool/server/pool/store.py:22-35 | takes the dirty ids and the rows of those in memory |
| PoolServer.Pool.EndFlush | src/gh_pool/server/pool/store.py:53-63 | the loop evicts exactly what was flushed, is finished and was not touched since |
| PoolServer.Pool.FailFlush | src/gh_pool/server/pool/store.py:40-52 | every id of the failed flush is dirty again |
| PoolServer.Pool.Load | src/gh_pool/server/pool/store.py:69-76 | an unknown stored row enters memory, and the queue unless it is running |
| PoolServer.Pool.LoadAll | src/gh_pool/server/pool/store.py:68-76 | the loop over the stored unfinished rows leaves memory and queue as the specification's merge does |
| PoolServer.Pool.Recover | src/gh_pool/server/pool/store.py:66-79 | the recovery loop equals the specification's merge and queueing |
| TaskLog.EndedMeansWholeLog | src/gh_pool/worker/__init__.py:327-337 | whatever the pool, other workers, the network and crashes of the server do, a task that is done, failed or cancelled was ended by its own worker after its sender had returned: the server's file is the whole stream of that moment or has reached the cap |
| TaskLog.LeaseBegins | src/gh_pool/server/pool/queue.py:73-90 | every lease in a server's life starts such a run |
| TaskLog.HandOutBegins | src/gh_pool/server/pool/queue.py:69-91 | every hand-out of a waiting task is such a beginning for the token of its lease call |
| TaskLog.RunKeepsInv | src/gh_pool/server/pool/store.py:66-79 | across crashes and recoveries a leased task runs under its worker's token or under none until it ends, and whoever has begun to complete it, or whose report is shown, stored or being flushed, had sent all |
| TaskPage.PageOverOverlay | src/gh_pool/server/tasks.py:191-205 | for every memory, database and limit the unfiltered listing is a newest page of memory laid over the database, given that shadowed rows agree on their creation time |
| TaskPage.PageOfMemory | src/gh_pool/server/pool/queue.py:25-31 | without an answer from the database it is a newest page of memory |
| TaskPage.ListedInLife | src/gh_pool/server/tasks.py:198-205 | along a server's life, with memory read first, the database later and any steps between, the answer is a newest page of memory's tasks, as they are when shown, over the database; with nothing between, of what look-ups show |
| TaskPage.ListedAsLookedUp | src/gh_pool/server/tasks.py:198-205 | every row of the answer is what a look-up of its id shows at that moment, unless the task came into memory in between and is shown as stored |
| TaskPage.ShownIsWhole | src/gh_pool/server/tasks.py:198-201 | no task that memory held when it was read is missing from what is shown of it, evicted or not |
| TaskPage.AgesMustAgree | src/gh_pool/server/tasks.py:202-205 | without that agreement a row can be missing from the page |
| EventLog.FileIsAPrefix | src/gh_pool/server/tasks.py:90-118 | under loss, duplication, delay, reordering, lost replies and torn appends the event file is a prefix of the worker's stream, sent <= file length <= size, and the file stays below the cap plus one chunk |
| EventLog.OnlyExtends | src/gh_pool/worker/__init__.py:137-168 | file, stream and acknowledged offset never go back, and a sender that returned stays so |
| EventLog.ReturnedMeansWhole | src/gh_pool/worker/__init__.py:144-147 | a sender that returned without being stopped by the cap leaves the file equal to the whole stream, for good, whatever is still in the network |
| EventLog.StoppedMeansCapped | src/gh_pool/server/tasks.py:102-104 | a sender stopped by the server leaves a file that reached the cap |
| EventLog.DeliveryStores | src/gh_pool/server/tasks.py:100-118 | a chunk delivered at the end of a file below its cap is stored behind it whole, any other changes nothing, and the reply is the file's length and whether that is below the cap |
| EventLog.AnswerMoves | src/gh_pool/worker/__init__.py:163-168 | a reply sets the sender to the length it names and lets it go on, or ends it when the file is at its cap |
| EventLog.NextMove | src/gh_pool/worker/__init__.py:144-155 | the sender leaves, rests or sends exactly when it has to, and sends all that is unsent or a full chunk of its front |
| EventLog.AllCanBeSent | src/gh_pool/worker/__init__.py:144-168 | from every state of a sender that may go on, whatever was lost, repeated or torn before, some steps store and acknowledge the whole stream or bring the file to its cap |
| EventLog.NothingGetsStuck | src/gh_pool/worker/__init__.py:144-168 | at every moment of every run a stream below the cap can be stored whole, and the sender of a finished task can then return unstopped |
| EventLog.NothingVanishes | src/gh_pool/worker/__init__.py:80-94 | the spool is a run of texts and markers that stand, in order, for consecutive groups of the task's writes: each text is one write unaltered, each marker counts one whole run of dropped writes, and the writes left over are those counted for the next marker |
| EventLog.AllKeptWithinTheCap | src/gh_pool/worker/__init__.py:83-85 | while the backlog stays within its limit at every write the spool holds all that was written and nothing else |
| EventLog.DroppedIff | src/gh_pool/worker/__init__.py:80-85 | a write is counted as dropped exactly when the backlog exceeds its limit, and kept whole otherwise |
| EventLog.DigitsTell | src/gh_pool/worker/__init__.py:86-90 | the marker states the number of dropped bytes in decimal digits |
| EventLog.LogTellsAll | src/gh_pool/worker/__init__.py:80-168 | when a sender has returned and the cap did not stop it, the server's file is for good what it held at the lease and then, in order, every write of the task, unaltered or in a dropped run whose size a marker states; only the last run lacks its marker |
| EventLog.SpoolFile.Write | src/gh_pool/worker/__init__.py:80-94 | keeps output, or counts it while the backlog exceeds the limit, and marks a gap before the next output |
| EventLog.SpoolFile.Next | src/gh_pool/worker/__init__.py:144-155 | the sender's loop up to a request, a nap or its end |
| EventLog.SpoolFile.Acknowledge | src/gh_pool/worker/__init__.py:163-168 | adopts the server's offset and stops when it no longer accepts |
| EventLog.EventFile.Accept | src/gh_pool/server/tasks.py:100-118 | stores the data whole exactly when the offset is the end of a file below the cap, changes nothing otherwise, and answers with the file's length and whether it is below the cap |
| LogReader.Follow | src/gh_pool/client/task.py:98-110 | the chunks form one contiguous slice from the start offset with all that was there when the last poll began, none empty; it ends at the first poll that sees a finished status and has reached the size seen, and at no other |
| LogReader.PollNext | src/gh_pool/client/task.py:99-109 | one turn of that loop: what it yields, where it leads, and that it is the last exactly when the status is finished and the offset has reached the size seen |
| LogReader.OffsetInFile | src/gh_pool/server/tasks.py:225-241 | the offset reached never passes the end of the file and covers the size seen |
| LogReader.StoppedHasAllIff | src/gh_pool/server/tasks.py:223-243 | a reader that stopped has the whole log if and only if nothing was appended between its read and the status, or it had nothing to read |
| LogReader.StoppedCanMissTheTail | src/gh_pool/server/tasks.py:223-243 | a poll after which the reader stops short |
| LogReader.Watch | src/gh_pool/client/task.py:91-96 | the events are those of the complete lines of all that was read, whatever the chunks, and the rest is what follows the last newline |
| LogReader.ParseJoins | src/gh_pool/rpc.py:93-99 | parsing two texts joined by a newline is parsing both |
| LogReader.PartitionStep | src/gh_pool/client/task.py:94-95 | a chunk completes exactly the lines it completes in the unfinished end |
| SessionLog.StepKeepsInv | src/gh_pool/core/sessions.py:144-321 | every transaction, posts included, keeps numbering, and of the server's own events the agreement with the command rows, one start at a time, and silence after the close |
| SessionLog.WholeLog | src/gh_pool/core/sessions.py:187-321 | all events are numbered 1..last_seq; of the server's own, starts are in queue order, each after the one before has ended, an accepted command has exactly one terminal event if its row is terminal and none before, and none is about a command after the close |
| SessionLog.OverMeansSettled | src/gh_pool/core/sessions.py:187-220 | the server has closed an ended session exactly once and published one terminal event for every accepted command; a live one it never closed |
| SessionLog.LogOnlyGrows | src/gh_pool/core/events.py:45-63 | the log is only appended to and an ended session stays ended |
| SessionPosts.ClosedAtMostOnceIff | src/gh_pool/core/sessions.py:323-325 | the whole log holds at most one close if and only if the runner has posted none in a run whose session has ended, or at most one in a run whose session still lives |
| SessionPosts.OneEndIff | src/gh_pool/server/api_runner.py:107-111 | a reader sees one terminal event of an ended command plus one for each that the runner posted; exactly one if and only if the row is terminal and none was posted, or it is not and one was |
| SessionPosts.StartedAtMostOnceIff | src/gh_pool/server/api_runner.py:107-111 | a command is seen to start at most once if and only if the runner posted no start of it, or one and the server has published none |
| SessionPosts.StepQuietIff | src/gh_pool/core/sessions.py:187-321 | a transaction publishes an event about a command if and only if it moves a row or is a post about one |
| SessionPosts.QuietSinceIff | src/gh_pool/core/sessions.py:187-325 | from any moment of any run on no event is about a command, whoever publishes it, if and only if the runner posts none about one and no row moves |
| SessionPosts.SilentAfterTheEndIff | src/gh_pool/core/sessions.py:220-325 | the server's close ends the log of its transaction, and behind it no event is about a command if and only if the runner posts none there |
| SessionPosts.PostsAreActs | src/gh_pool/core/sessions.py:323-325 | the closes, starts and ends in the log that are not the server's are as many as the runner posted |
| SessionPosts.RunnerCanPostAClose | src/gh_pool/server/api_runner.py:107-111 | a live session whose log holds a close |
| SessionPosts.RunnerCanEndTwice | src/gh_pool/server/api_runner.py:107-111 | enqueue, take, a posted end and the completion: two terminal events of one command are seen |
| SessionPosts.RunnerCanSpeakAfterTheEnd | src/gh_pool/server/api_runner.py:107-111 | a finish and a posted start: an event about a command behind the close |
| SessionReports.StepRecords | src/gh_pool/core/sessions.py:187-321 | each transaction records of a command exactly what was reported to it, the runner's result or error or the end of the session, and moves its row to match |
| SessionReports.RecordedIffReported | src/gh_pool/core/sessions.py:199-321 | over any run an outcome is recorded of a command if and only if some transaction reported it |
| SessionReports.CompletionIsRecorded | src/gh_pool/core/sessions.py:289-320 | from the completion of a started command on, the log holds its result, or its error if there is one, and the row says finished exactly when there is none |
| SessionReports.ReadyIsPublished | src/gh_pool/core/sessions.py:144-155 | a pending session becomes active with one event that says whether its state is stale; any other is left alone |
| SessionReports.EndIsPublished | src/gh_pool/core/sessions.py:187-220 | a live session that ends is closed or dead by the reason that its last event names, and stays live otherwise |
| SessionReports.GivenIsStarted | src/gh_pool/core/sessions.py:267-287 | a runner is given the lowest queued command, whose row and event say started, and none exactly when one is running or none is queued |
| SessionLog.FirstQueued | src/gh_pool/core/sessions.py:276-281 | the lowest queued command |
| SessionLog.Row.Append | src/gh_pool/core/events.py:45-63 | takes the next number and appends one event with it |
| SessionLog.Row.MarkReady | src/gh_pool/core/sessions.py:144-155 | only a pending session becomes active, with one event |
| SessionLog.Row.Enqueue | src/gh_pool/core/sessions.py:222-256 | accepts with the next number exactly when the session is live |
| SessionLog.Row.TakeNext | src/gh_pool/core/sessions.py:267-287 | starts the lowest queued command and answers with it, unless one is started or none is queued |
| SessionLog.Row.Complete | src/gh_pool/core/sessions.py:289-321 | ends a started command with one event: finished with the result, or failed with the error if there is one; changes nothing otherwise |
| SessionLog.Row.Finish | src/gh_pool/core/sessions.py:187-220 | ends a live session once: the orphans fail, then the close |
| SessionLog.Row.RequestClose | src/gh_pool/core/sessions.py:166-177 | finishes a pending session at once and only asks an active one |
| EventStream.ExactlyOnce | src/gh_pool/client/session.py:224-276 | with hooks in commit order, through overflows, cuts and reconnections, the client has processed exactly the first events of the log, each once and in order, and counts as finished exactly when one of them is a close |
| EventStream.StopsAtACloseUntilACut | src/gh_pool/client/session.py:238-246 | behind a close the client processes nothing more until its connection is cut |
| EventStream.ReadsOnAfterACut | src/gh_pool/client/session.py:224-241 | from any state with more in the log, a close processed or not, a cut and a reconnection make the client process the next event |
| EventStream.WaitingMeansLive | src/gh_pool/core/events.py:65-83 | a stream that has nothing left but to wait waits over a live session and has sent the whole log; over a closed one it ends |
| EventStream.RestsIff | src/gh_pool/core/events.py:69-83 | helper for the row above: a loaded stream waits exactly when history and queue are empty, the session was live when checked and nothing overflowed |
| EventStream.EndsForAReason | src/gh_pool/core/events.py:65-83 | a stream ends only when a thousand events wait unsent, the session is over, or a close is the last event it sent |
| EventOrder.RisingInAnyOrder | src/gh_pool/core/db.py:59-66 | with the hooks run in any order, over whole runs with overflows, cuts and reconnections, the client processes committed events under strictly rising numbers |
| EventOrder.LeftOutForGood | src/gh_pool/core/events.py:76-83 | a number that the client has passed over is never processed later |
| EventOrder.OutOfOrderSkips | src/gh_pool/core/db.py:59-66 | a run in which a client that was never cut off has processed the second of two events and not the first |
| EventOrder.StepKeepsInv | src/gh_pool/core/events.py:65-99 | whatever order events are announced in, wire and history stay above what the client has and below what was sent |
| EventStream.RisingWhateverIsOffered | src/gh_pool/core/events.py:76-83 | helper: whatever is offered, one step of one stream keeps its numbers rising |
| EventStream.StepKeepsInv | src/gh_pool/core/events.py:65-99 | wire, history and queue stay overlapping contiguous pieces of the log that continue what the client has |
| EventStream.Streaming.Put | src/gh_pool/core/events.py:26-32 | an offer queues the event or marks the overflow |
| EventStream.Streaming.Next | src/gh_pool/core/events.py:69-83 | the generator's next event, its wait or its end |
| EventStream.Streaming.Yield | src/gh_pool/core/events.py:80-83 | sends one event, remembers its number and ends at a close |
| Sse.Pump | src/gh_pool/server/sse.py:40-62 | prints the retry line, then a frame or a ping per tick |
| Sse.ParseSse | src/gh_pool/protocol/sse.py:13-35 | the buffered line loop over any chunks equals reading the joined text character by character |
| Sse.ReadJoins | src/gh_pool/protocol/sse.py:19-23 | reading a text in two parts is reading it whole |
| Sse.RoundTrip | src/gh_pool/protocol/sse.py:13-35 | printed frames with single-line fields, with pings anywhere and any chunking, are parsed back exactly and in order |
| Sse.ManyLines | src/gh_pool/protocol/sse.py:25-35 | an event whose data comes on several lines is delivered once, with exactly those lines |
| Sse.CarriageReturns | src/gh_pool/protocol/sse.py:23 | a carriage return before a newline makes no difference |
| Sse.CutDelivers | src/gh_pool/protocol/sse.py:24-27 | a connection cut anywhere delivers exactly the frames printed in full, never an unfinished one |
| EventWire.TextDeliversAPrefix | src/gh_pool/protocol/sse.py:13-35 | events written as frames, with pings anywhere and the text broken off anywhere, are understood as a prefix of those events, and as all of them when the text is whole |
| EventWire.ConnectionIsTheWire | src/gh_pool/client/session.py:228-231 | whatever text of a connection reaches the client, it processes exactly the events it understands, one reception each, and then the connection is gone |
| ClientSession.StepKeepsInv | src/gh_pool/client/session.py:262-333 | for every order of reply, terminal events, any number of them and for any id, end, close and detach each command is being submitted, pending, or settled with the outcome that decides or the session's end |
| ClientSession.PendingAndStashDisjoint | src/gh_pool/client/session.py:288-293 | no id is both pending and stashed |
| ClientSession.SettledOnce | src/gh_pool/client/session.py:96-102 | whatever settles a future finds it unsettled, so no outcome is dropped |
| ClientSession.RefusalIsTold | src/gh_pool/client/session.py:311-333 | each of those settles the future for good, and a refused submission leaves it the refusal as its error |
| ClientSession.NothingLeftUnsettled | src/gh_pool/client/session.py:195-205 | once the session is finished or let go no accepted command is unsettled |
| ClientSession.OwnOutcome | src/gh_pool/client/session.py:288-333 | an answered command about which an event was processed has the deciding event's outcome, the last before the answer or else the first after it, unless it was failed as too late |
| ClientSession.NoFalseDeath | src/gh_pool/client/session.py:285-293 | in a client nobody closed, detached or refused, and that no close posted before the session's own end misled, no accepted command is told that the session is dead |
| ClientSession.EarlyCloseMisleads | src/gh_pool/client/session.py:285-287 | a close that comes before the server has closed the session tells every pending command that it is dead |
| ClientSession.Session.OnAccepted | src/gh_pool/client/session.py:327-333 | settles from the stash, fails, or waits |
| ClientSession.Session.OnTerminalEvent | src/gh_pool/client/session.py:288-293 | settles the pending command or stashes the event |
| ClientSession.Session.FailAll | src/gh_pool/client/session.py:298-301 | the loop fails exactly the pending commands and forgets them |
| EndToEnd.EventAllowed | src/gh_pool/client/session.py:278-293 | every event that reaches the client is the next of the server's log; the server's own terminal event is about an accepted command and its first, and its close finds all accepted commands ended |
| EndToEnd.MisledByAPost | src/gh_pool/core/sessions.py:323-325 | a close that misleads the client was posted by the runner before the server's own |
| EndToEnd.StepKeepsInv | src/gh_pool/core/events.py:65-83 | database, stream and client stay coupled, whatever the runner posts: the same events decide for the client as in the log |
| EndToEnd.SettledAsRecorded | src/gh_pool/client/session.py:268-333 | a future that was not failed as too late holds the outcome of the event that decides, and is unsettled only while none has been seen; that is the server's own recorded outcome when the runner posted no terminal event about the command |
| EndToEnd.OwnOutcomeDecidesIff | src/gh_pool/client/session.py:288-333 | the server's own terminal event is what decides if and only if each posted one was seen before it, with the answer yet to come, or after both it and the answer |
| SessionReports.FutureHoldsTheReport | src/gh_pool/client/session.py:288-333 | a future that the server's own event decided holds what a completion was given for the command, or that the session ended before it did |
| Deciding.DecidesIff | src/gh_pool/client/session.py:288-293 | of any terminal events exactly that one decides which goes before all others: the last before the answer, or the first if none came before it |
| Deciding.OwnDecides | src/gh_pool/client/session.py:327-333 | with nothing posted about a command the server's own event decides, whenever the answer comes |
| EndToEnd.AllSettledAtTheEnd | src/gh_pool/client/session.py:285-301 | a client nobody closed, detached or refused that saw its session end, with no close posted before the server's, has every answered command settled with the outcome that decides, the server's own unless the runner posted one |
| ShellChannel.Stream.Append | src/gh_pool/server/shell.py:35-40 | the window is always the log from `base`, at most `cap` long, and only the oldest bytes leave |
| ShellChannel.Stream.Read | src/gh_pool/server/shell.py:42-44 | serves the log from the nearest byte still there |
| ShellChannel.Stream.Advance | src/gh_pool/server/shell.py:97-100 | appends exactly when the offset is the end, and answers where the end is |
| ShellChannel.NothingLostOnTheWay | src/gh_pool/shell.py:59-67 | over a lossy duplicating network log plus the unacknowledged rest of `pending` is every byte handed in, in order, and the writer never takes its channel for reset |
| ShellChannel.ReadsAllIffNeverBehind | src/gh_pool/shell.py:92-99 | the reader passed on the log exactly once and in order if and only if at none of its polls it lagged by more than the cap |
| ShellChannel.BehindMeansLagging | src/gh_pool/server/shell.py:35-44 | the window begins where its size says, and the reader is behind it exactly when it lags by more than that |
| ShellChannel.Writer.Push | src/gh_pool/shell.py:59-67 | the push loop, answer by answer, until nothing is pending or the channel was reset |
| ShellChannel.PushKeepsTheRest | src/gh_pool/shell.py:65-66 | what was pending is dropped exactly as far as the last answer acknowledges, and the channel is taken for reset exactly when an answer does not move past the one before |
| ShellChannel.AnswerPushes | src/gh_pool/shell.py:59-67 | one answer does to the writer of the runs what it does in the push loop |
| Escapes.Escape.Filter | src/gh_pool/cli/shell.py:47-62 | detaches if and only if the bytes typed so far, across calls, hold `~.` at the start of a line, and passes on exactly what precedes the first; otherwise everything but a held `~` |
| Escapes.Type | src/gh_pool/cli/shell.py:42-62 | the same over a whole sitting, for any chunking |
| Escapes.Escape.Take | src/gh_pool/cli/shell.py:49-61 | one turn of the byte loop: what it lets pass and whether it completes the first escape |
| Escapes.Extends | src/gh_pool/cli/shell.py:49-55 | one more byte completes an escape exactly when a `~` is held and the byte is a dot, and that escape is the first |
| TunnelWire.FrameParses | src/gh_pool/protocol/tunnel.py:46-55 | parsing inverts framing for every operation, 32-bit stream number and payload, and nothing else can be framed |
| TunnelWire.ParseFrames | src/gh_pool/protocol/tunnel.py:51-55 | framing inverts parsing for every frame with a known operation; only short frames are refused and only unknown first bytes lose their operation |
| TunnelRelay.StepKeepsInv | src/gh_pool/relay/tunnel.py:23-153 | opening, frames, failures, reads, local closes and shutdown keep each stream's account: taken plus queued is what arrived for it while it is open, one failure notice after |
| TunnelRelay.OwnInOrder | src/gh_pool/relay/tunnel.py:131-140 | whatever shares the socket, a reader gets a prefix of its own payloads in order |
| TunnelRelay.EndIff | src/gh_pool/relay/tunnel.py:37-44 | a reader is at a clean end exactly when it took the stream's first CLOSE, every payload before it was handed over and it carries no error; it is told of the runner's error exactly when that CLOSE carries it, and left with a decoding error exactly when it cannot be read |
| TunnelRelay.FailureSurfaces | src/gh_pool/relay/tunnel.py:84-94 | a failed stream tells its reader at the next read and settles its head; a reader that would wait without end waits on a stream the socket still feeds |
| TunnelRelay.FailedFor | src/gh_pool/relay/tunnel.py:64-94 | an open stream is failed by the end of the tunnel, an unreadable frame, a CLOSE before its head, which gives the reason, or a full queue, and by nothing else; an awaited head is refused with that reason |
| TunnelRelay.DeadStaysDead | src/gh_pool/relay/tunnel.py:105-126 | once sending has failed or the tunnel was shut down it stays dead and no stream is opened on it any more |
| TunnelRelay.FailureIsFinal | src/gh_pool/relay/tunnel.py:84-94 | a reader failed before its end gets nothing more and never a clean end |
| TunnelRelay.FramesKeepApart | src/gh_pool/relay/tunnel.py:134-140 | helper: a frame touches no other stream unless it brings the tunnel down |
| TunnelRelay.BehindMeansFull | src/gh_pool/relay/tunnel.py:75-82 | helper: an open stream falls behind exactly when its queue is full and the frame is one to be queued |
| TunnelRelay.AnswerRoutes | src/gh_pool/relay/tunnel.py:131-140 | the socket loop's handling of a frame is the step of the runs |
| TunnelRelay.Stream.Fail | src/gh_pool/relay/tunnel.py:84-94 | drains the queue, leaves one notice, refuses an awaited head |
| TunnelRelay.Stream.Offer | src/gh_pool/relay/tunnel.py:64-82 | head, early close, queueing and overflow as specified |
| TunnelRelay.Stream.Read | src/gh_pool/relay/tunnel.py:37-44 | takes the next item and settles the reader's fate at a CLOSE |
| TunnelRelay.Tunnel.Open | src/gh_pool/relay/tunnel.py:105-114 | a new stream under a number never used before, if the tunnel is alive |
| TunnelRelay.Tunnel.Receive | src/gh_pool/relay/tunnel.py:131-140 | one frame reaches the stream it names and no other, and a failed stream is forgotten |
| TunnelRelay.Tunnel.Close | src/gh_pool/relay/tunnel.py:56-62 | the stream is gone and forgotten, the others untouched |
| TunnelRelay.Tunnel.Shutdown | src/gh_pool/relay/tunnel.py:147-151 | every open stream fails with the same reason and none stays open |
| FleetKeeper.SurplusExact | src/gh_pool/fleet/workers.py:189-190 | helper: the surplus has exactly max(0, started + pending - jobs) members and reaches into the started runs only when all pending ones are in it |
| FleetKeeper.VictimsExact | src/gh_pool/fleet/workers.py:174-194 | in the fields of the sight: every run past its time is a victim, of the others exactly as many as are over and so none without a surplus, and a run in progress among them only if every idle run is one |
| FleetKeeper.NewestGo | src/gh_pool/fleet/workers.py:165-190 | of each kind the newest runs are given up |
| FleetKeeper.VictimsInOrder | src/gh_pool/fleet/workers.py:191-194 | the victims are the expired and the surplus runs, none twice, idle ones first |
| FleetKeeper.BudgetsKept | src/gh_pool/fleet/workers.py:195-208 | a tick stops only victims not stopped before, exactly as many idle and busy ones as the budgets allow, no busy run while an idle victim is put off, and nothing only when nothing is left to stop |
| FleetKeeper.SilentPoolSpares | src/gh_pool/fleet/workers.py:175-186 | while the pool does not tell who serves and there is no surplus, the victims are exactly the idle runs past their time |
| FleetKeeper.LaunchFits | src/gh_pool/fleet/workers.py:216-220 | helper: a launch implies no surplus and started + pending + recent + launch <= jobs, and below the cap nothing that fits is put off |
| FleetKeeper.LaunchMeansRoom | src/gh_pool/fleet/workers.py:189-223 | a tick launches only when exactly the runs past their time are to be retired, and then all it counts and all it remembers as launched fit into `jobs` |
| FleetKeeper.NeverOverbooks | src/gh_pool/fleet/workers.py:216-223 | over any number of ticks the counted runs plus all launches not yet listed are no more than `jobs` after a tick that launches |
| FleetKeeper.CancelledOnce | src/gh_pool/fleet/workers.py:168-207 | between two cancels for one run some tick did not list it |
| FleetKeeper.RefusedIsForgotten | src/gh_pool/fleet/workers.py:206-207 | over any number of ticks a run whose cancel was refused is not asked again while it stays listed |
| FleetKeeper.Unfinished | src/gh_pool/fleet/workers.py:157-165 | each listed run once, as the last page shows it, newest first |
| FleetKeeper.KindsTell | src/gh_pool/fleet/workers.py:173-186 | the three lists in the fields of a run: past its time, or else in progress, or else idle |
| FleetKeeper.Repo.Classify | src/gh_pool/fleet/workers.py:173-186 | splits the runs into the three lists of the row above, keeping their order |
| FleetKeeper.Repo.Retire | src/gh_pool/fleet/workers.py:195-208 | the loop cancels exactly as many of the victims not stopped before as the budgets allow, up to a refused request |
| FleetKeeper.Repo.Dispatch | src/gh_pool/fleet/workers.py:221-223 | the launch loop remembers each launch that got through |
| FleetKeeper.Repo.Reconcile | src/gh_pool/fleet/workers.py:168-223 | the whole tick is one step of the runs above |

## Left out

- HTTP, authentication, configuration, tracing, metrics, logging and the command line: no property of their own. Settings are constants with their default values, or parameters.
- SQL and Postgres: a transaction is one atomic step; an upsert, the query for unfinished rows and the ordered page with a limit are taken for what they say.
- Artifacts: the flush of their rows is like that of tasks; their deletion runs outside the flush lock.
- The listing with a status filter: memory rows of another status do not shadow stored ones there.
- The workers table, `touch` and the keeper's back-off: bookkeeping that no property here depends on.
- A cancel that would read the database before recovery has succeeded: it could act on a stale row, so the model lets such a cancel wait. A look-up in the database and what a handler does with it is one step.
- The order of after-commit hooks is an assumption of `EventStream.ExactlyOnce`, stated above.
- One writer at a time for each log and each shell direction is assumed, and no request of an earlier one still in the network; a shell whose channel the server forgets and makes anew is not modelled.
- UTF-8 decoding and JSON: characters stand for bytes, the events of one line and the content of a tunnel's CLOSE and HEAD are parameters, and the error of a frame the relay itself queues is read back as it was written. How an event is written into a frame and read back is a parameter of `EventWire`; an event the client cannot decode, which it skips by its number, is not modelled.
- The client's poll whether a session is over appears only as one way for its reader to end. The texts of the errors that end a session for the client are one constant.
- `ClientSession` and `EndToEnd` have one client per session; events about other clients' commands would stay in the stash.
- Deletion of a session, profiles, screenshots, subscriptions of user code and the session cap of `create`.
- The replacement of one runner's tunnel by another and the time limit on a head: to the streams they are a shutdown and a local close.
- `TaskLog` is about one lease of a task: a crash that finds the lease not stored leads to another one, and while nobody holds the task only the worker it was given to presents a token for it.
- The keeper reads the clock once a tick in the model. A launch that reports an error is taken to have started nothing, and `FleetKeeper.NeverOverbooks` assumes that a launch is listed within the grace period.
- Liveness and real time: only safety and what holds when something has stopped.
- Browser driving, pty and process handling, the GitHub scale-set client and its controllers: foreign systems.

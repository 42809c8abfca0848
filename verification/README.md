# Block layer and IPC of Linux 3.0: a Dafny model

Six cores of the kernel's block layer and IPC code, each modelled the way the
code works and proved against an independent statement of what it is for.

* **System V semaphores** (`Sem*.dfy`). The reference pass `SemSettle.Settle`
  completes the first sleeper that need not sleep on and starts over. The class
  `SemArray.Set` does what the code does (in-place arrays, roll back, per-semaphore
  lists, skipped restarts, `do_smart_update`) and is proved to give the result of
  the reference pass. Whole runs stay quiet, fair and balanced.
* **FLUSH/FUA sequencer** (`Flush*.dfy`). A history of what was issued and what
  ended gives cache ordering a meaning; a state invariant, a potential and the
  class `FlushQueue.Queue` carry it through every interleaving.
* **Bio throttling** (`Throttle*.dfy`). A bookkeeping invariant ("paid for") gives
  the rate bound over whole runs, with 64-bit and 32-bit arithmetic written out; a
  bound on the age of slices shows when that arithmetic never overflows. The class
  `ThrottleGroup.Group` keeps the history its accounts are the run of.
* **Segments, scatter-gather and partial completion** (`Segments.dfy`,
  `SegmentOps.dfy`, `MergeRequests.dfy`, `Completion*.dfy`). A cached segment
  count promises that some valid split exists; every merge keeps the promise, and
  the greedy mapping needs no more than any split. Completion is stated on the
  bytes of a request.
* **Message queues** (`PrioList.dfy`, `Mq*.dfy`, `Sysv*.dfy`, `MsgStore.dfy`). The
  POSIX queue is a machine of single reads and writes by sleepers and wakers; its
  lists are views of arrival orders. The System V queue is filtered receive and
  hand-over under the lock. Messages are stored in chunks.
* **Deadline scheduler** (`Deadline*.dfy`). Two indexes over one set of requests,
  and a potential that bounds how long reads may pass over waiting writes.

Each core has a value-level specification, theorems about all its runs, and,
where the code updates state in place, a class whose methods are proved equal to
the specification (`View() == Spec(old(View()))`). The `BUG_ON`s on modelled paths
are assertions. Time, process identities, device completions, signals and
timeouts are parameters or events.

All lemmas carry `{:induction false}`, so that every induction is written out.

## Findings

* The undo entry of a semaphore is a 16-bit value, but a call is checked operation
  by operation: two SEM_UNDO operations on one semaphore in one call can each be in
  range and wrap the entry together. `SemUndo.RepeatedUndoWraps` is a concrete
  case, `SemUndo.GrantConserves` says exactly when the balance holds.
* `msgrcv()` with the most negative type argument accepts no message at all, since
  the argument cannot be negated (`SysvMsg.FilterMeansWanted`). A comment says the
  type must be less than the absolute value; the code accepts an equal type.
* The checked helper for records reports an overflow for zero records if a single
  record would not fit, although the value is zero (`MqBytes.RecordsExact`, with
  the case in `MqBytes.NoRecordsOverflow`).
* A comment says a waiter stands before the first of smaller priority; the code
  also puts it before equals, which is what makes equals first come, first served.

## Model

| member | source | states |
|---|---|---|
| `SemArray.Set.TryAtomicSemop` | ipc/sem.c:354-413 | all operations of a call take effect together, with pids and undo entries; a call that would block or fails leaves values, pids and undo entries exactly as they were |
| `SemArray.Set.RollBack` | ipc/sem.c:405-412 | subtracting newest first restores every value |
| `SemArray.Set.Commit` | ipc/sem.c:385-398 | each operation of a granted call is recorded in the pid of its semaphore and, for SEM_UNDO, subtracted from the 16-bit undo entry |
| `SemArray.Set.UnlinkQueue` | ipc/sem.c:462-469 | a sleeper leaves the global list and its per-semaphore list or the complex count, which stay exact projections of the global list |
| `SemArray.Set.CheckRestart` | ipc/sem.c:480-532 | if no restart is asked for, everybody who was blocked before the completion still is |
| `SemArray.Set.ScanOne` | ipc/sem.c:590-605 | a sleeper leaves the list exactly if it need not sleep on, with its verdict; without a restart everybody blocked stays blocked |
| `SemArray.Set.ScanTurn` | ipc/sem.c:572-608 | one turn of the loop skips a blocked entry or completes the sleeper the reference pass completes next |
| `SemArray.Set.UpdateQueue` | ipc/sem.c:548-611 | the scan with all its shortcuts terminates with the state and the wake-ups, in order, of the reference pass without any |
| `SemArray.Set.DoSmartUpdate` | ipc/sem.c:627-648 | looking only at the semaphores touched ends in the state of a full pass, with the same wake-ups and results, in the same order on every semaphore |
| `SemArray.Set.SemTimedOp` | ipc/sem.c:1408-1456 | a call is granted, refused or enqueued as the state machine says, the set is quiet again, and in the wake-ups as they are made no sleeping decrement is overtaken by a later one of the same or larger amount |
| `SemArray.Set.Interrupted` | ipc/sem.c:1478-1510 | a timeout or signal removes exactly that sleeper and leaves the set quiet |
| `SemArray.Set.SetValue` | ipc/sem.c:987-1008 | the value is set, all undo entries for the semaphore are cleared, and the set is settled |
| `SemArray.Set.SetValues` | ipc/sem.c:917-966 | all values are set or none, undo entries are cleared, and the set is settled |
| `SemArray.Set.ExitSem` | ipc/sem.c:1551-1639 | the undo entries of the process are applied, clamped to 0..SEMVMX, removed, and the set is settled |
| `SemArray.ScanOps` | ipc/sem.c:1353-1361 | the largest semaphore number, and whether any operation is undoable or alters anything |
| `SemSettle.CompleteKeepsInv` | ipc/sem.c:548-611 | completing a sleeper keeps values and undo entries in range, sleepers distinct and waiters for zero first |
| `SemSettle.SettleQuiets` | ipc/sem.c:548-611 | after the reference pass every sleeper it covers would still block |
| `SemSettle.QuietIsSettled` | ipc/sem.c:548-611 | on a quiet set a pass over any part does nothing |
| `SemConfluence.CompletionsCommute` | ipc/sem.c:534-588 | two single-operation sleepers on different semaphores may complete in either order, with the same values, undo entries and list |
| `SemConfluence.Diamond` | ipc/sem.c:579-588 | the first ready sleepers of two semaphores stay first and keep their verdicts whichever goes first |
| `SemConfluence.OutOfTurn` | ipc/sem.c:579-588 | taking the first ready sleeper of any semaphore out of turn changes neither the final state nor the order of wake-ups on any semaphore |
| `SemConfluence.OneSemaphoreFirst` | ipc/sem.c:579-648 | with no complex sleepers, a pass over one semaphore followed by a full pass equals the full pass, and the order of wake-ups on each semaphore is the same |
| `SemScan.ZerosAreReadOnly` | ipc/sem.c:480-500 | a call that only waits for zeros changes no value and no undo entry |
| `SemScan.DecrementUnblocks` | ipc/sem.c:500-532 | after a granted single decrement nobody becomes ready but waiters for zero on that semaphore, and only at zero |
| `SemScan.ReadyIsTriggered` | ipc/sem.c:627-648 | whoever a successful call makes ready sits on a semaphore that call raised or brought to zero |
| `SemScan.ReadOnlyQuiet` | ipc/sem.c:1419-1426 | a granted call that alters nothing wakes nobody |
| `SemFairness.NoOvertaking` | ipc/sem.c:548-611 | in one pass, with anything else pending, no decrement is granted before an earlier one of the same or smaller amount on its semaphore |
| `SemFairness.NewcomerWaits` | ipc/sem.c:1419-1452 | a new decrement cannot succeed past a sleeping one of the same or smaller amount |
| `SemRuns.StepKeeps` | ipc/sem.c:1308-1510 | every operation on the set keeps the invariant and leaves nobody asleep who could proceed |
| `SemRuns.EveryRunIsQuiet` | ipc/sem.c:354-648 | in every run all values stay within 0..SEMVMX and every pending operation would block if retried |
| `SemRuns.FairTransfers` | ipc/sem.c:627-648 | first come, first served carries over to any log with the same order on each semaphore |
| `SemRuns.SeenFair` | ipc/sem.c:354-648 | every operation on a quiet set, with its wake-ups in any order that keeps the order on each semaphore, overtakes nobody asleep |
| `SemRuns.NeverOvertaken` | ipc/sem.c:354-648 | over any run, and any order of wake-ups that keeps the order on each semaphore, while a decrement sleeps no later one of the same or larger amount on its semaphore is granted |
| `SemUndo.GrantConserves` | ipc/sem.c:354-413 | value plus all undo entries moves by the plain operations alone if and only if the undo operations together fit in 16 bits |
| `SemUndo.DistinctFits` | ipc/sem.c:364-384 | for calls whose undo operations name distinct semaphores the range check per operation is enough |
| `SemUndo.DistinctConserves` | ipc/sem.c:354-413 | for such calls value plus all undo entries moves by the plain operations alone |
| `SemUndo.RepeatedUndoWraps` | ipc/sem.c:364-398 | a concrete call with two undo operations on one semaphore wraps the entry |
| `SemUndo.SettleConserves` | ipc/sem.c:548-611 | a whole pass moves the balance by the plain operations it granted |
| `SemUndo.StepConserves` | ipc/sem.c:952-959 | each operation moves the balance by plain operations, direct settings and clamping only |
| `SemUndo.RunConserves` | ipc/sem.c:354-413 | over any run the balance is the initial one plus what plain operations, settings and clamping added |
| `FlushModel.Policy` | block/blk-flush.c:94-107 | a request with FLUSH or FUA gets at least one step, and a post-flush only together with data |
| `FlushModel.CurSeq` | block/blk-flush.c:109-112 | the current step is the lowest one not done |
| `FlushProofs.CompleteSeqKeeps` | block/blk-flush.c:143-191 | moving a request on puts it on exactly the list of its next step, keeps at most one flush in flight, exactly while the indexes differ, and leaves nothing stalled |
| `FlushProofs.InsertKeeps` | block/blk-flush.c:297-335 | a new request keeps the invariant |
| `FlushProofs.FetchKeeps` | block/blk-core.c:1908-1926 | handing a request to the device keeps the invariant |
| `FlushQueue.Queue.FetchRequest` | block/blk-core.c:1908-1926 | the driver gets the head of the dispatch list, with the invariant kept |
| `FlushProofs.DataEndKeeps` | block/blk-flush.c:274-284 | the end of data finds the request at its data step and keeps the invariant |
| `FlushProofs.FlushEndKeeps` | block/blk-flush.c:193-228 | the end of a flush finds the indexes different and the running list not empty, and keeps the invariant |
| `FlushProofs.KickKeeps` | block/blk-flush.c:243-272 | issuing a flush keeps the invariant, and afterwards no request waits for a flush that nothing will bring about |
| `FlushQueue.Queue.CompleteSequence` | block/blk-flush.c:143-191 | moves the request as the state machine does and reports whether something was queued |
| `FlushQueue.Queue.constructor` | block/blk-core.c:407-456 | a new queue is the idle state machine, with the invariant |
| `FlushQueue.Queue.InsertFlush` | block/blk-flush.c:297-335 | inserts as the state machine does, with the invariant kept and no assertion violated |
| `FlushQueue.Queue.FlushDataEndIo` | block/blk-flush.c:274-284 | ends data as the state machine does, with the invariant kept |
| `FlushQueue.Queue.Walk` | block/blk-flush.c:206-212 | walking the live running list, from which requests move away, visits each request that was on it once and in order |
| `FlushQueue.Queue.FlushEndIo` | block/blk-flush.c:193-228 | ends the flush as the state machine does, with the invariant kept |
| `FlushQueue.NextIsNoFlush` | block/blk-flush.c:206-212 | a flushed request never goes back to a flush list, so the walk cannot meet it twice |
| `FlushRuns.CacheOrder` | block/blk-flush.c:143-335 | in every interleaving, data that needs a pre-flush is issued only after a flush issued since the insertion succeeded, and success with a post-flush is reported only after a flush issued since the data ended succeeded |
| `FlushQueue.Queue.HistoryInOrder` | block/blk-flush.c:143-335 | the same holds of the history of the queue the code updates in place |
| `FlushRuns.RunEnds` | block/blk-flush.c:143-191 | in every run each request ends once if it has left the machine, and not before |
| `FlushRuns.StepLowers` | block/blk-flush.c:143-228 | every step but a submission lowers a potential, and every completion lowers the number of unfinished steps |
| `FlushRuns.NoEndlessRun` | block/blk-flush.c:143-284 | without new submissions a run cannot have more events than the potential it starts with |
| `FlushRuns.NoDeadlock` | block/blk-flush.c:243-271 | while a request is unfinished the dispatch list or the device has something to do |
| `Throttle.BytesSent` | block/blk-throttle.c:643-683 | a bio allowed by the byte limit keeps the books in order through charge and trim, and the total within rate times time plus one slice, unless this very step overflows a word |
| `Throttle.IosSent` | block/blk-throttle.c:593-641 | the same for the number of bios |
| `Throttle.PaidTrim` | block/blk-throttle.c:535-591 | trimming drops no more dispatched bytes than the trimmed slices paid for |
| `Throttle.PaidCurrent` | block/blk-throttle.c:496-531 | starting a new slice or stretching the current one keeps the books in order |
| `Throttle.Asked` | block/blk-throttle.c:695-744 | a refused bio only renews or stretches the slice |
| `Throttle.VerdictMeans` | block/blk-throttle.c:695-744 | a bio that may go is within the rate since the slice began plus one slice; one that may not is told to wait at least one jiffy and not beyond the end of the slice, which reaches a full slice ahead |
| `Throttle.TrimTakes` | block/blk-throttle.c:535-591 | a trim takes off each counter what the rate allows in the whole slices dropped, and moves the slice past them unless it takes off nothing |
| `ThrottleRuns.RunBytes` | block/blk-throttle.c:496-756 | over every run in which no step that lets a bio go overflows, the books of bytes stay in order |
| `ThrottleRuns.RunIos` | block/blk-throttle.c:496-756 | the same for the books of bios |
| `ThrottleRuns.RateBound` | block/blk-throttle.c:496-809 | from the first slice to any later time, bytes times HZ never exceed bps times the time plus one slice, and the same for bios, as long as no step that lets a bio go overflows a word |
| `ThrottleAge.YoungFits` | block/blk-throttle.c:593-683 | while slices last no longer than the reach, and the limits leave room for that, no product or counter overflows |
| `ThrottleAge.RunFits` | block/blk-throttle.c:496-756 | granted, refused and asked bios all keep slices that short, so over every run no word overflows |
| `ThrottleAge.RateBoundByLimits` | block/blk-throttle.c:496-809 | the rate bound for every run however long, from a condition on the limits, the largest bio and the delay of the dispatcher |
| `ThrottleAge.OrdinaryIsRoomy` | block/blk-throttle.c:593-683 | HZ 1000, bios up to a megabyte, delays up to ten seconds and up to a petabyte a second meet that condition |
| `ThrottleGroup.Group.constructor` | block/blk-throttle.c:181-203 | a new group has empty lists and accounts, with the invariant |
| `ThrottleGroup.Group.GroupRateBound` | block/blk-throttle.c:496-842 | the rate bound holds of the bios that left the group |
| `ThrottleGroup.Group.GroupRateBoundByLimits` | block/blk-throttle.c:496-842 | the same from the condition on the limits |
| `ThrottleGroup.Group.UpdateDisptime` | block/blk-throttle.c:771-789 | asking about the bio at the head of each list is one more event of each account and sends nothing |
| `ThrottleGroup.Group.DispatchDirection` | block/blk-throttle.c:811-842 | bios leave in the order they came until one must wait or the quota is used up, and the account is that of the run of these bios |
| `ThrottleGroup.Group.DispatchGroup` | block/blk-throttle.c:811-842 | at most eight bios leave and both accounts are those of the runs |
| `ThrottleGroup.Group.ThrotlBio` | block/blk-throttle.c:1126-1225 | a bio passes only if none is queued before it and it is allowed; otherwise it is queued last, and the first one queued has both directions asked; bios of a direction never overtake each other |
| `Segments.StaysAhead` | block/blk-merge.c:12-69 | at every point the greedy rule has started fewer segments than any valid split, or as many with no more in the current one |
| `Segments.GreedyIsMinimal` | block/blk-merge.c:117-199 | the greedy split has no more segments than any valid split |
| `Segments.PromiseBounds` | block/blk-merge.c:117-199 | a count for which some split exists bounds the greedy split |
| `Segments.PromiseConcat` | block/blk-merge.c:202-226 | side by side, counts add up |
| `Segments.PromiseJoin` | block/blk-merge.c:277-315 | if the outer segments fit and join, one segment is saved and the outer sizes are those the code caches |
| `SegmentOps.MapSg` | block/blk-merge.c:117-170 | the table is a valid split of exactly the vectors given, of the greedy size |
| `SegmentOps.RecalcSegments` | block/blk-merge.c:12-69 | the count is that of the greedy split that never joins high pages, with cached outer sizes that do not under-estimate |
| `MergeRequests.RecountSegments` | block/blk-merge.c:76-84 | the bio's count and cached sizes keep their promise |
| `MergeRequests.Request.BackMerge` | block/blk-merge.c:228-250 | granted or refused, the request's count still bounds its mapping; granted, its data is extended at the end within the queue limits |
| `MergeRequests.Request.FrontMerge` | block/blk-merge.c:252-275 | the same at the front, with the start sector moved |
| `MergeRequests.Request.Map` | block/blk-merge.c:117-170 | mapping a request whose merges kept the invariant needs at most nr_phys_segments entries |
| `MergeRequests.Request.Recalc` | block/blk-merge.c:71-74 | recounting re-establishes the invariant and changes no data |
| `MergeRequests.ContigMerge` | block/blk-merge.c:87-111 | with the cached sizes overwritten as the code does, both requests and their concatenation, one segment shorter, keep their promise |
| `MergeRequests.MergeRequestsFn` | block/blk-merge.c:277-315 | even a refusal that already overwrote cached sizes leaves both requests in order |
| `MergeRequests.AttemptMerge` | block/blk-merge.c:367-447 | a merged request holds the data of both in order and its count still bounds its mapping; a refusal changes no data and no count |
| `Completion.RestBytes` | block/blk-core.c:2006-2154 | completing n bytes leaves exactly the data without its first n bytes |
| `Completion.EndsInOrder` | block/blk-core.c:2054-2063 | the bios ended and the bios left, in this order, are the bios there were |
| `Completion.CompletionsCompose` | block/blk-core.c:2006-2154 | completing n and then k bytes leaves the chain, vector offsets, sectors and ended bios of completing n + k at once if and only if the second is not an empty completion that meets an empty bio |
| `Completion.EmptyBioTellsApart` | block/blk-core.c:2054-2063 | a concrete chain with an empty bio in the middle for which they differ |
| `Completion.NoneEmptyComposes` | block/blk-core.c:2006-2154 | without an empty bio in the chain two completions are always one |
| `Completion.SectorInStep` | block/blk-core.c:2006-2154 | the sector the request moves to is that of the bio now in front, and the chain stays contiguous |
| `Completion.AddSectors` | block/blk-core.c:168 | sector counts of two completions add up exactly when no bytes carry over |
| `CompletionRequest.Request.ReqBioEndio` | block/blk-core.c:150-176 | size and sector advance, and bio_endio is called exactly when nothing is left and the request is no flush, with the error or EIO for a bio that failed before |
| `CompletionRequest.Request.Shorten` | block/blk-core.c:2121-2126 | the bio the loop stopped in loses exactly the bytes done |
| `CompletionRequest.Request.Advance` | block/blk-core.c:2053-2103 | the loop over bios and vectors ends the exhausted bios and stops where the rest begins |
| `CompletionRequest.Request.UpdateRequest` | block/blk-core.c:2006-2154 | chain, ended bios, data length and sector are those of the specification, data length stays the sum of the bios, and the checks for a botched request never fire |
| `CompletionRequest.UpdatesCompose` | block/blk-core.c:2006-2154 | two calls leave the chain, data length and reports of one call if and only if the second is not an empty completion that meets an empty bio, and then the same sector if and only if it is not tracked, the first call is empty or the request is not all done |
| `PrioList.ServesBest` | ipc/mqueue.c:509-527 | the last item is the oldest arrival of the largest key, and without it the list is that of the remaining arrivals |
| `PrioList.BestIsOldest` | ipc/mqueue.c:509-527 | no arrival has a larger key, and all earlier ones have smaller keys |
| `PrioList.LeavingCommutes` | ipc/mqueue.c:486-492 | whoever leaves the line, the list stays the view of those who remain |
| `MqQueue.ShiftUp` | ipc/mqueue.c:513-517 | exactly the messages of no smaller priority move up by one |
| `MqQueue.Stood` | ipc/mqueue.c:437-443 | the newcomer stands before the first waiter whose static_prio is not larger |
| `MqQueue.Info.MsgInsert` | ipc/mqueue.c:509-521 | the array becomes the ordered one with the message in it, as the newest arrival; qsize stays the sum of the sizes |
| `MqQueue.Info.MsgGet` | ipc/mqueue.c:523-527 | the oldest arrival of the highest priority comes out, the others stay in order and qsize exact |
| `MqQueue.Info.WqAdd` | ipc/mqueue.c:430-444 | the wait list becomes the ordered one with the caller in it, as the last to come |
| `MqQueue.Info.WqGetFirstWaiter` | ipc/mqueue.c:497-506 | somebody is found exactly if anybody waits: the one with the smallest static_prio who came first among those |
| `MqProofs.GoKeeps` | ipc/mqueue.c:922-949 | entering a send or receive keeps the invariant in each of its outcomes |
| `MqProofs.GrabKeeps` | ipc/mqueue.c:831-860 | handing a message over and unlinking the record keeps the invariant |
| `MqProofs.WakerKeeps` | ipc/mqueue.c:835-841 | the waker's writes of the record's state keep the invariant |
| `MqProofs.GiveUpKeeps` | ipc/mqueue.c:478-490 | leaving with a signal or timeout keeps the invariant |
| `MqProofs.StepKeeps` | ipc/mqueue.c:430-492 | every step of every task keeps the invariant |
| `MqRuns.WakerNeverTouchesTheDead` | ipc/mqueue.c:451-492 | in every interleaving, whenever a waker is about to touch a wait record its owner is still inside wq_sleep |
| `MqRuns.SpinningEnds` | ipc/mqueue.c:466-467 | a task spins on a pending state only while a waker that holds the lock is about to publish |
| `MqRuns.GivingUpIsLinked` | ipc/mqueue.c:478-488 | a task that gives up is still in the list it unlinks itself from |
| `MqRuns.EveryMessageInOnePlace` | ipc/mqueue.c:831-860 | each copy of a submitted message is with one task, queued, delivered or freed, and counted once |
| `MqRuns.FailedSendNeverDelivered` | ipc/mqueue.c:926-938 | the message of a failed send is never queued, handed over or delivered |
| `MqRuns.SentMessageIsSomewhere` | ipc/mqueue.c:922-949 | the message of a successful send is queued, delivered or with exactly one receiver |
| `MqRuns.WaitersMeanFullOrEmpty` | ipc/mqueue.c:926-949 | while the lock is free, senders wait only on a full queue and receivers only on an empty one |
| `MqRuns.HighestPriorityOldestFirst` | ipc/mqueue.c:1003-1024 | a receiver gets the oldest message of the highest priority, and only that one leaves the queue |
| `MqRuns.BestWaiterFirst` | ipc/mqueue.c:497-506 | whoever is woken has the smallest static_prio of all that wait and came first among those |
| `SysvMsg.FilterMeansWanted` | ipc/msg.c:736-753 | the filter accepts what msgrcv() promises for every message if and only if the type argument can be negated |
| `SysvMsg.ChosenIsChoice` | ipc/msg.c:780-803 | the message chosen is the first accepted one, or for a bound the first of the smallest accepted type, and none only if none is accepted |
| `SysvMsg.ChoiceUnique` | ipc/msg.c:780-803 | there is no other such message |
| `SysvMsg.Search` | ipc/msg.c:780-803 | the loop that narrows its bound and stops early finds the chosen message |
| `SysvQueue.FirstFitTakes` | ipc/msg.c:600-633 | a message is handed over exactly if some sleeper accepts it and has room, and then to the first such one |
| `SysvQueue.LeftAsleep` | ipc/msg.c:600-633 | if nobody takes the message, nobody left asleep accepts it |
| `SysvQueue.EveryRunSettled` | ipc/msg.c:674-893 | in every run no receiver sleeps while a message it accepts is queued, q_qnum and q_cbytes are exact, and each message sent is queued or was delivered once |
| `SysvQueue.SmallestTypeFirst` | ipc/msg.c:736-803 | a receive with a negative type takes the first message of the smallest type within its bound |
| `SysvQueue.Queue.PipelinedSend` | ipc/msg.c:600-633 | sleepers are woken and unlinked as the specification says |
| `SysvQueue.Queue.DoMsgsnd` | ipc/msg.c:674-713 | a message is accepted exactly if bytes and count fit, and the queue stays settled |
| `SysvQueue.Queue.DoMsgrcv` | ipc/msg.c:772-840 | one pass gives the answer and the queue of the specification, and the queue stays settled |
| `MsgStore.LoadMsg` | ipc/msgutil.c:49-117 | the chunks hold exactly the bytes, every chunk but the last is full |
| `MsgStore.StoreMsg` | ipc/msgutil.c:119-144 | the first len bytes come back, and no chunk past the last is read |
| `MsgStore.RoundTrip` | ipc/msgutil.c:49-144 | storing k bytes of a loaded message yields its first k bytes |
| `MsgStore.PackedUnique` | ipc/msgutil.c:49-117 | the bytes determine the chunks |
| `MqBytes.MulExact` | include/linux/l30_checked_math.h:31-38 | the product overflows exactly when it does not fit |
| `MqBytes.FlexExact` | include/linux/l30_checked_math.h:48-57 | header plus array overflows exactly when it does not fit |
| `MqBytes.RecordsExact` | include/linux/l30_checked_math.h:60-69 | the records helper is exact if and only if there is a record or one record fits |
| `MqBytes.NoRecordsOverflow` | include/linux/l30_checked_math.h:60-69 | the concrete case: no records of SIZE_MAX bytes are reported as an overflow, the value being zero |
| `MqBytes.User.Create` | ipc/mqueue.c:156-182 | a queue is charged exactly if its sizes and the new sum fit and stay within the limit; otherwise nothing changes |
| `MqBytes.User.Evict` | ipc/mqueue.c:287-293 | the refund computed again is the charge, so the sum stays exact and never drops below zero |
| `Deadline.FindMember` | block/elevator.c:388-406 | a search by sector finds a request exactly if one starts there |
| `DeadlineProofs.LatterIsNext` | block/deadline-iosched.c:66-74 | the latter request is the one with the next larger start sector |
| `DeadlineProofs.AddRbKeeps` | block/deadline-iosched.c:77-84 | with the request in the way sent out, the new one is in its tree and everything else stays in step |
| `DeadlineProofs.AddedKeeps` | block/deadline-iosched.c:101-113 | a new request is in both lists, behind all older ones |
| `DeadlineProofs.FrontMergedKeeps` | block/deadline-iosched.c:156-168 | repositioning keeps the indexes in step even if the request was the next one to dispatch |
| `DeadlineProofs.MergedRequestsKeeps` | block/deadline-iosched.c:171-189 | the survivor takes the earlier expiry with its place, and ages stay in order |
| `DeadlineProofs.DispatchedKeeps` | block/deadline-iosched.c:245-327 | a dispatch keeps the indexes in step |
| `DeadlineRuns.EveryRunInStep` | block/deadline-iosched.c:76-327 | in every run both lists of a direction hold the same requests, ages are in order, at most one next request is set and it is in its tree, and nr_sorted is exact |
| `DeadlineRuns.NewBatchStartsEarliest` | block/deadline-iosched.c:300-320 | if anything of the chosen direction has expired, a new batch starts with the request that expires first |
| `DeadlineRuns.NeverIdle` | block/deadline-iosched.c:245-327 | a dispatch does nothing exactly when nothing is sorted, and otherwise sends out one request |
| `DeadlineRuns.PassingLowers` | block/deadline-iosched.c:262-320 | every dispatch that passes over a waiting write uses up patience |
| `DeadlineRuns.WritesServedInTime` | block/deadline-iosched.c:245-327 | while writes wait, at most (writes_starved + 1) * max(1, fifo_batch) dispatches pick reads, whatever is inserted and merged meanwhile |
| `DeadlineQueue.RbAdd` | block/elevator.c:356-377 | the descent finds the request in the way or the place in sector order |
| `DeadlineProofs.RemovedKeeps` | block/deadline-iosched.c:87-124 | exactly that request leaves both lists, a next pointer still names a waiting request, and the lists stay in step and in order |
| `DeadlineQueue.Scheduler.MoveRequest` | block/deadline-iosched.c:195-222 | the request goes to the dispatch list, and only its direction keeps a next request |
| `DeadlineQueue.Scheduler.AddRqRb` | block/deadline-iosched.c:77-84 | the retry loop sends out at most one request and inserts the new one |
| `DeadlineQueue.Scheduler.AddRequest` | block/elevator.c:701-717 | sorted insert as specified, with the invariant kept |
| `DeadlineQueue.Scheduler.MergedRequest` | block/deadline-iosched.c:156-168 | repositioning as specified, with the invariant kept |
| `DeadlineQueue.Scheduler.MergedRequestsFn` | block/elevator.c:564-581 | merging as specified, with the invariant kept |
| `DeadlineProofs.PickWaits` | block/deadline-iosched.c:245-320 | the request chosen, from the batch or as a new head, waits in the list of its own direction |
| `DeadlineQueue.Scheduler.DispatchRequests` | block/deadline-iosched.c:245-327 | dispatch as specified, with the invariant kept; it reports false exactly when nothing is sorted |
| `DeadlineQueue.DispatchedHolds` | block/deadline-iosched.c:245-327 | a dispatch loses no request and sends none twice |
| `DeadlineQueue.Scheduler.DrainElevator` | block/elevator.c:609-621 | forced dispatch terminates with nr_sorted zero and both lists empty, and exactly the requests of both lists are sent out, each once |

## Left out

- Removal of semaphore sets and queues (IPC_RMID), RCU grace periods and memory barriers: objects live through the run and memory is sequentially consistent.
- User copies, permissions, audit, security hooks, namespaces, procfs, sysctl and sysfs; security hooks are taken to allow.
- `block/cfq-iosched.c`, `block/noop-iosched.c`, ioctl translation, tags, timeouts, accounting and statistics.
- Semaphores: the fast wake-up path without the lock is one step; `semncnt`, `semzcnt` and time stamps.
- FLUSH/FUA: the device advertises FLUSH and FUA requests carry data, as the callers ensure; `flush_queue_delayed` and `blk_abort_flushes`.
- Throttling: one time per call, fixed limits, no jiffies wrap; the service tree that picks the next group, for which tg_update_disptime computes the time. The rate bound is for directions with a limit and, for each word, for runs in which no step that lets a bio go overflows it.
- Merging: requests without data, integrity segments, DMA padding and draining, mixed-merge flags and merge hash. Physical contiguity and the boundary mask are one test on two vectors.
- Completion: vectors before `bi_idx` and the failfast flags; sizes are unbounded integers. The sector of a request is compared for whole sectors only.
- POSIX queues: notification, polling and the checks before the lock; the static_prio of a sleeping task is fixed; unlinking a record and handing over its message is one step, since only the lock holder sees the list and the owner reads the message after STATE_READY only.
- System V queues: the lock-free hand-over is one step (the POSIX queue models that protocol); sleeping senders, which only retry; `expunge_all`, which leaves the queue as it is.
- Chunked messages: allocation failures.
- Deadline scheduler: red-black balancing (a tree is its requests in sector order), back merges, which change no start sector, and changes of the settings during a run.

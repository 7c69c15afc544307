# omnipp: a verified model

omnipp is a `cat` and a `grep` built from a few imperative parts. This project models the parts whose
correctness is not obvious from reading them, and proves what they promise for every input, every
schedule of short system calls and every interleaving of threads and kernel.

| Part | Files |
|---|---|
| The parallel search: workers sharing a queue, a mutex, `pending_` and `running_`, over any finite tree | `DirectoryTree`, `Traversal`, `TraversalTheorems` |
| The directory records it reads, byte by byte, and why that loop is what the search's transitions say | `Dirents`, `BatchRefinement` |
| The pools of request slots | `RequestPool` |
| The io_uring event loop with kernel and regex workers | `EventLoop`, `EventLoopSlots`, `EventLoopDirs`, `EventLoopOwners`, `EventLoopDelivery`, `EventLoopTheorems`, `EventLoopRuns`, `EventLoopKinds` |
| The three line filters, and reading in chunks before them | `Lines`, `Filters`, `FilterTheorems`, `ReadFile` |
| Batching and writing to a shared stdout | `Output` |
| The colour renderer and what a terminal makes of it | `Colour` |
| The ways `cat` copies a file | `Cat` |

How to read it:

- **Concurrent parts are state machines.** `Traversal`, `EventLoop` and the second half of `Output` have a
  state, an enabling condition and one transition per atomic action. `Possible` and `Run` make whole
  interleavings of them, `Reachable` the states these lead to, and the `...Theorems` modules speak about
  every reachable state. They are values and functions because the code they stand for is interleaved
  between any two actions by other threads or the kernel; a sequential method could not be.
- **Sequential parts keep their form.** Loops are methods with loops, objects with fields are classes
  (`RequestPool`, `Batch`, `Stdout`), the colour mask is an array filled in place.
- **The outside world is a parameter.** A system call that may transfer less than it was asked for takes its
  count from an arbitrary schedule (`raw`, `fill`, `drain`, `writes`), which `Transferred` turns into a
  count the call may return; regex engines and the syntax parser are arbitrary functions or lists; the
  kernel and the thread scheduler are transitions.

What the proofs found out about the code, stated as exact conditions:

- The broadcast that ends a search can be missed, but only by a worker that stood between its wait
  predicate and its sleep when it was sent (`OnlyBlockingWorkerMissesBroadcast`,
  `BlockingWorkerCanMissBroadcast`, `BroadcastCanOvertakeSleep`). The work is complete all the same.
- A read that fails in the ring is never taken off `in_flight_`: with nothing outstanding the pump returns
  if and only if no read has ever failed (`ReturnsUnlessAReadFailed`, `NeverReturnsAfterFailedRead`;
  `FailedReadHangsThePump` is a run that gets there).
- Filtering a file chunk by chunk sends, and counts, what filtering it whole does, for every predicate, if and
  only if every chunk boundary has a newline on one of its sides (`ChunksAgreeExactlyWithoutSplits`,
  `CountIsRightExactlyWithoutSplits`, `SplitLineIsCountedTwice`).
- The splice pair of `cat` comes to an end, in the absence of errors, if and only if every fill of the pipe
  is whole; otherwise the sink waits for bytes that nobody sends (`SplicePair`, `ShortFillBlocks`).
- Rendered text strips back to the data if and only if the data has no ESC of its own
  (`StripGivesDataBack`, `OwnEscIsLost`), and every byte shows in its own colour if and only if colour 0
  never follows another colour (`ColoursStick`, `ColourRunsOn`).
- A terminal is a character device, so `cat` splices to it and never colours its output
  (`TerminalsGetNoColour`).
- The newline that `Write` can be asked to force is counted even if writing it fails, and a second flush of a
  batch would send its contents again (`Write`, `Flush`).

## Model

| member | source | states |
|---|---|---|
| `DirectoryTree.RootOwesDue` | src/commands/grep.h:94-175 | The recursive account of what a walk has to do, directory by directory, is the plain one: once for every path that leads through openable directories to a directory or an openable regular file, never for another. |
| `Traversal.StructureKept` | src/commands/grep.h:75-181 | Every action keeps: mutex and program positions agree, a worker that goes to sleep found the queue empty, a worker that pops finds a directory, `running_` is false only with `pending_` at 0. |
| `Traversal.CountedKept` | src/commands/grep.h:164-180 | Every action keeps `pending_` equal to queued plus held plus counted-but-unpublished directories. |
| `Traversal.ConservedKept` | src/commands/grep.h:88-181 | Every action keeps, for each event of each path: happened + owed by the queue + owed by the workers = owed by the tree. |
| `Traversal.AttendedKept` | src/commands/grep.h:79-90 | Every action keeps: while running, a non-empty queue has a worker that will look at it before sleeping. |
| `TraversalTheorems.InitInv` | src/commands/grep.h:48-68 | The state `run` sets up for any number of workers satisfies all invariants. |
| `TraversalTheorems.RunInv` | src/commands/grep.h:71-184 | Every interleaving preserves all invariants. |
| `TraversalTheorems.NeverTwice` | src/commands/grep.h:71-184 | In no reachable state has a directory been opened, enumerated or closed, or a file searched, more often than once, or at all if it is not due. |
| `TraversalTheorems.SearchComplete` | src/commands/grep.h:71-184 | Once `running_` is false, every reachable openable directory has been opened, read to its end and closed exactly once, every openable file in them searched exactly once, nothing else has happened, the queue is empty and nobody holds a directory. |
| `TraversalTheorems.LeavingMeansComplete` | src/commands/grep.h:75-86 | No worker leaves its loop before the whole search is complete. |
| `TraversalTheorems.HeldDirectoryIsOpenAndExclusive` | src/commands/grep.h:88-97 | A directory in a worker's hand has not been closed, and no two workers hold the same one. |
| `TraversalTheorems.PendingIsExact` | src/commands/grep.h:58-59 | In every reachable state `pending_` is exactly what it is meant to count. |
| `TraversalTheorems.LastSubtractionFindsNothingLeft` | src/commands/grep.h:176-180 | The `fetch_sub` that returns 1 happens with the queue empty and no other worker holding a directory. |
| `TraversalTheorems.LastSubtractionOnce` | src/commands/grep.h:176-180 | It happens at most once in any run. |
| `TraversalTheorems.QueueIsAttended` | src/commands/grep.h:79-90 | Whenever the queue is non-empty while running, some worker will look at it before it sleeps. |
| `TraversalTheorems.Progress` | src/commands/grep.h:75-90 | While `running_` is true some worker that is not asleep can move, although one `notify_one` follows an append of many directories. |
| `TraversalTheorems.NotifyWakesOne` | src/commands/grep.h:172 | `notify_one` lowers the number of sleepers by exactly one when there is one. |
| `TraversalTheorems.BroadcastWakesAll` | src/commands/grep.h:179 | After `notify_all` nobody is asleep. |
| `TraversalTheorems.WorkIsBounded` | src/commands/grep.h:75-181 | From every state, work moves are bounded by a measure of what is left of the tree, whatever the interleaving. |
| `TraversalTheorems.SearchWorkIsBounded` | src/commands/grep.h:75-181 | The work of a whole search is bounded by a number that depends on the tree alone. |
| `TraversalTheorems.EagerRunsEnd` | src/commands/grep.h:75-181 | A run in which nobody wakes up without a call has bounded length while `running_` holds, counting every move, whatever the interleaving. |
| `TraversalTheorems.EagerSearchFinishes` | src/commands/grep.h:71-184 | Once such a run cannot be extended, the search is complete: it never gets stuck halfway. |
| `TraversalTheorems.SearchCanFinish` | src/commands/grep.h:71-184 | From every state that satisfies the invariants some schedule leads to `running_` being false. |
| `TraversalTheorems.OnlyBlockingWorkerMissesBroadcast` | src/commands/grep.h:81-179 | After a shutdown broadcast, of the search or of the destructor, only the worker that then was between predicate and sleep can be found asleep. |
| `TraversalTheorems.BlockingWorkerCanMissBroadcast` | src/commands/grep.h:178-179 | That worker does miss it if it moves next, from every such state. |
| `TraversalTheorems.BroadcastCanOvertakeSleep` | src/commands/grep.h:178-179 | Such a state is reachable: two workers and an empty directory. |
| `Dirents.RecordReadBack` | src/utils/event_loop.h:42-49 | A record in the `linux_dirent64` layout reads back its length, type and name, whatever follows it, and the next record begins right after it. |
| `Dirents.Layout` | src/utils/event_loop.h:42-49 | The length is in bytes 16 and 17, the type in byte 18, the name from byte 19 on up to a zero byte. |
| `Dirents.WalkForHandler` | src/utils/event_loop.h:174-188 | The walk over the encoding of any list of records calls the handler once for each regular file and directory, in order, with its name, and ends at the end of the buffer. |
| `Dirents.HandlerSees` | src/utils/event_loop.h:178-187 | The handler's calls are, in order, those for the records of type 8 and 4, with their names, flagged as file for type 8 and not for type 4, and no others. |
| `Dirents.WalkBatch` | src/commands/grep.h:110-162 | The walk visits every record once, in order, on every skip, failure and success path, and collects exactly the descriptors of subdirectories that could be opened, `.` and `..` excepted. |
| `Dirents.WhatIsDone` | src/commands/grep.h:119-161 | Record by record and nothing besides: a directory other than `.` and `..` is opened as one; a regular file is opened and, if that succeeds, searched and then closed; nothing is done for anything else. |
| `Dirents.SearchedWhileOpen` | src/commands/grep.h:142-158 | Every search comes right after the opening of a file and right before the close of the same descriptor. |
| `Dirents.FilesSearchedAndClosed` | src/commands/grep.h:140-159 | Over a batch, every regular file that was opened is searched once and closed once, and nothing else is. |
| `BatchRefinement.WalkRefinesBatch` | src/commands/grep.h:114-162 | A worker's transitions over a batch are possible, log what the byte loop does record by record, collect exactly the entries whose descriptors it collects, and change nothing else. |
| `BatchRefinement.CollectedAsMany` | src/commands/grep.h:130-138 | The entries collected are as many as the descriptors the byte loop collects. |
| `RequestPool.RequestPool.constructor` | src/utils/request_pool.h:136-155 | A new pool is sound, with all `N` slots on the free list once. |
| `RequestPool.RequestPool.Next` | src/utils/request_pool.h:184-221 | The new state is `Take` of the old one; the request gets the ring entry and is counted, or is parked when the queue is full; soundness is kept. |
| `RequestPool.RequestPool.TryPopOverflow` | src/utils/request_pool.h:158-180 | The oldest parked request, unchanged, moves to the ring exactly when there is one and room for it. |
| `RequestPool.RequestPool.Release` | src/utils/request_pool.h:224-239 | The slot goes back to the list it came from, the primary list stays within `N`, the count goes down modulo 2^64. |
| `RequestPool.TakeCounts` | src/utils/request_pool.h:188-204 | Taking removes one slot from the free lists or creates one, and touches no other. |
| `RequestPool.PrimarySlotsFirst` | src/utils/request_pool.h:188-204 | An overflow slot is used only when no primary one is free, a new one created only when none is free at all. |
| `RequestPool.FreeThenTake` | src/utils/request_pool.h:188-231 | Taking right after freeing a primary slot gives back that slot and the pool as it was. |
| `RequestPool.SlotsMatchPeak` | src/utils/request_pool.h:184-239 | For any sequence of calls, the slots owned are the larger of `N` and the peak number of live requests. |
| `RequestPool.FreeListHasRoom` | src/utils/request_pool.h:229-232 | The unchecked push always has room. |
| `EventLoopSlots.SlotsKept` | src/utils/event_loop.h:145-320 | Every event keeps each slot in exactly one place and the count of requests in flight exact modulo 2^64. |
| `EventLoopDirs.RefsKept` | src/utils/event_loop.h:334-355 | Every event keeps each reference count equal to the references there are. |
| `EventLoopOwners.RolesKept` | src/utils/event_loop.h:145-320 | Every event keeps each open descriptor waiting for exactly one thing. |
| `EventLoopDelivery.DeliveryKept` | src/utils/event_loop.h:274-295 | Every event keeps what the read handler was given a prefix of the file that ends where the next read starts. |
| `EventLoopTheorems.RunInv` | src/utils/event_loop.h:145-320 | Every interleaving of pump, kernel and workers preserves all invariants. |
| `EventLoopTheorems.SlotInExactlyOnePlace` | src/utils/regex_handler.h:115-179 | Every slot is in exactly one of: free list, overflow free list, overflow queue, ring, pump, workers' queue, a worker's hand, the way back, or lost to a failed read. |
| `EventLoopTheorems.FreeListNeverOverruns` | src/utils/event_loop.h:209-281 | Wherever the pump frees a primary slot, after a completion or because a worker sent it back, the unchecked push has room. |
| `EventLoopTheorems.LiveSlotsKeepTheirRequest` | src/utils/event_loop.h:139-143 | No event resets a request that the kernel, the pump or a worker still uses; the kernel writes only the buffer of the read it answers. |
| `EventLoopTheorems.PumpNeverTrips` | src/utils/event_loop.h:334-355 | Both asserts on the reference counts hold wherever they are reached, and every request pointer leads to a request of its kind. |
| `EventLoopTheorems.RefCountIsExact` | src/utils/event_loop.h:103-191 | A count is 1 during enumeration plus the relative openats queued or outstanding, and the entry exists exactly while that is positive. |
| `EventLoopTheorems.OneRolePerDescriptor` | src/utils/event_loop.h:124-132 | At no moment is there a second read outstanding for a file, or a second close for a descriptor, or both. |
| `EventLoopRuns.CloseFindsItOpen` | src/utils/event_loop.h:278-281 | An event that queues a close finds the descriptor open, as a directory or a file being read, and no close of it outstanding. |
| `EventLoopRuns.RunBalance` | src/utils/event_loop.h:145-355 | Over any part of any run, a descriptor is closed as often as opened, up to its being open at the start and the end, and its close is queued as often as carried out, up to the one outstanding. |
| `EventLoopRuns.EveryOpeningIsClosedOnce` | src/utils/event_loop.h:145-355 | From the start to a normal return, each opening has had its close queued exactly once and carried out exactly once. |
| `EventLoopTheorems.CloseComesLast` | src/utils/event_loop.h:342-355 | While a directory's close is queued or outstanding, no openat relative to it is. |
| `EventLoopTheorems.ClosedFilesWereGivenWhole` | src/utils/event_loop.h:274-295 | By the time a file's close is queued, the chunks given to the handler concatenate to the file, for any short reads. |
| `EventLoopKinds.RunToCome` | src/utils/event_loop.h:154-295 | Over any part of any run, for directories and for files: what was to come and what was asked for has been served, refused by the kernel, or is still to come. |
| `EventLoopKinds.EveryDirectoryIsEnumerated` | src/utils/event_loop.h:154-265 | From the start to a normal return, the directories asked for, as roots or because they were listed, are exactly those enumerated plus those whose openat failed. |
| `EventLoopKinds.EveryFileIsRead` | src/utils/event_loop.h:250-295 | From the start to a normal return, the files asked for are exactly those read to their end and given whole to the handler plus those whose openat failed. |
| `EventLoopTheorems.InFlightIsExact` | src/utils/event_loop.h:209-218 | `in_flight_` is the number of openat, close and read requests in the ring or the pump's hand plus the failed reads. |
| `EventLoopTheorems.ReturnsUnlessAReadFailed` | src/utils/event_loop.h:215-218 | With nothing outstanding, the pump returns if and only if no read has ever failed. |
| `EventLoopTheorems.NeverReturnsAfterFailedRead` | src/utils/event_loop.h:274-295 | After a failed read the pump never returns normally, whatever follows. |
| `EventLoopRuns.FailedReadHangsThePump` | src/utils/event_loop.h:274-295 | A reachable state: one file opened, its first read failed, nothing outstanding, and the pump cannot return. |
| `EventLoopTheorems.WaitsOnlyForSomething` | src/utils/event_loop.h:220-233 | Unless a read has failed, the pump submits and waits only with a request in the ring. |
| `EventLoopTheorems.ReturnMeansDone` | src/utils/event_loop.h:194-218 | At a normal return nothing is outstanding, all three overflow queues are empty, and every descriptor ever opened has been closed. |
| `Lines.LinesJoinToText` | src/transform/re2_regex.h:57-85 | Splitting at newlines loses nothing: joined by newlines, the lines are the text. |
| `Lines.LineAtIsLine` | src/transform/vectorscan_regex.h:128-134 | The line computed around a position is the line whose number is the count of newlines before it. |
| `Filters.FilterByLine` | src/transform/re2_regex.h:48-88 | Sends exactly the kept lines, each followed by a newline, up to the first failing call, and counts them. |
| `Filters.KeptIsFilter` | src/transform/re2_regex.h:57-85 | The kept lines are the plain filter over the lines of the text: in order, each once, empty ones never. |
| `FilterTheorems.EveryLineGivesTheText` | src/transform/re2_regex.h:62-84 | When every line is taken, what is sent, one piece after the other, is the text: each line with its own newline after it. |
| `Filters.FilterByEnds` | src/transform/vectorscan_regex.h:108-149 | Sends the line around each match end and its newline, up to the first failing call, and counts the matches. |
| `Filters.SearchAndSkip` | src/transform/simple_regex.h:30-75 | Terminates for every search oracle, and sends the visited lines without leading line breaks, up to the first failing call. |
| `FilterTheorems.EndsAgreeWithLines` | src/transform/vectorscan_regex.h:126-147 | For any text and non-decreasing match ends, VectorScan's lines with repeats collapsed and empty ones dropped are those the line-by-line filter keeps for "some match end lies in this line". |
| `FilterTheorems.EndsSendCompleteLines` | src/transform/vectorscan_regex.h:128-134 | Every line VectorScan sends is a complete, newline-free line of the text. |
| `FilterTheorems.SearchFindsMatchingLines` | src/transform/simple_regex.h:42-73 | With a leftmost search whose matches stay inside a line, search and skip visits exactly the lines with a match, once each, in order. |
| `FilterTheorems.TrimDropsLeadingBreaks` | src/transform/simple_regex.h:53-57 | What is sent of a line is the rest of it from its first character that is neither newline nor carriage return. |
| `FilterTheorems.SearchSendsMatchingLines` | src/transform/simple_regex.h:42-73 | In a text without carriage returns, exactly the matching lines are sent, as they are, once each and in order; without the empty ones that is what the line-by-line filter sends. |
| `FilterTheorems.SearchAgreesWithLines` | src/transform/simple_regex.h:42-73 | What it sends agrees with the line-by-line filter up to leading line breaks and empty lines. |
| `FilterTheorems.OneBoundary` | src/source/read_file.h:39-59 | Filtering two pieces is filtering their concatenation unless the boundary splits a line, and then the predicate that takes every line tells the difference. |
| `FilterTheorems.ChunksAgree` | src/source/read_file.h:36-61 | Without split lines, chunk by chunk and whole agree for every predicate; with the predicate that takes every line, the chunked run counts one more for each split. |
| `FilterTheorems.ChunksAgreeExactlyWithoutSplits` | src/source/read_file.h:36-61 | Chunk by chunk and whole agree for every predicate if and only if no boundary splits a line. |
| `FilterTheorems.FilterLinesIsKept` | src/transform/re2_regex.h:57-85 | The filter on contents used there is the one the loop computes. |
| `FilterTheorems.FilterLinesCount` | src/transform/re2_regex.h:54-87 | The count the loop returns is the number of lines it picks. |
| `ReadFile.ReadChunks` | src/source/read_file.h:31-62 | For any schedule of short reads the chunks concatenate to the file on success and to a prefix of it on failure, and the result is the sum of what the next stage reported; it succeeds if and only if no read and no call downstream fails. |
| `ReadFile.CountIsRightExactlyWithoutSplits` | src/source/read_file.h:36-61 | The count returned for a file is the number of its matching lines, for every predicate, if and only if no chunk boundary splits a line; when every line matches it is too high by the number of lines split. |
| `ReadFile.SplitLineIsCountedTwice` | src/source/read_file.h:51 | A file of one line read in two chunks: counted twice. |
| `Output.Write` | src/sink/write.h:34-62 | For any schedule of short writes exactly the data goes out, or after an error a proper prefix; without errors the forced newline goes out too, and it is counted even where its own write fails. |
| `Output.Batch.Data` | src/transform/batch.h:45-75 | Below 64 KiB nothing is written and the data is kept; from there on everything goes out; nothing is lost or reordered and less than 64 KiB is held back; after a failure the whole buffer is still there. |
| `Output.Batch.Flush` | src/transform/batch.h:77-86 | The whole buffer goes out and stays in the buffer. |
| `Output.StdoutIsMergedBatches` | src/sink/write.h:37-52 | At every point of every interleaving, stdout is whole batches one after the other plus a prefix of the one being written, and each worker has emitted what it wrote followed by what it holds back. |
| `Output.BatchesAreFull` | src/transform/batch.h:53-63 | In every interleaving each batch that went out holds at least 65536 bytes, except the last one of a worker that has finished. |
| `Output.FlushedWorkerIsComplete` | src/commands/grep.h:183 | After its flush a worker's part of stdout is exactly what its transform emitted. |
| `Colour.MaskIsLastCapture` | src/transform/tree_sitter.h:138-153 | A byte's mask entry is the colour of the last coloured capture that covers it, and 0 exactly when there is none. |
| `Colour.FillMask` | src/transform/tree_sitter.h:133-153 | Filling in place, capture by capture, gives every byte that colour. |
| `Colour.Render` | src/transform/tree_sitter.h:155-171 | The run-by-run loop succeeds exactly when all ids are known, and then equals the byte-by-byte rendering that emits a sequence where the mask changes, followed by the reset. |
| `Colour.Highlight` | src/transform/tree_sitter.h:55-174 | A parse that fails is an error; otherwise the node never rejects its own mask and hands on the rendering of it. |
| `Colour.RenderedShowsData` | src/transform/tree_sitter.h:155-171 | On a terminal, ESC-free data shows unchanged, each byte in the nearest non-zero colour at or before it, and the terminal ends reset. |
| `Colour.NamesShowInTheirColours` | src/transform/tree_sitter.h:94-171 | On the terminal, a byte whose last coloured capture is named keyword shows with SGR 35, function 34, string 33, variable 36. |
| `Colour.OtherNamesChangeNothing` | src/transform/tree_sitter.h:119-147 | A capture of any other name can be left out without changing the rendering. |
| `Colour.NearestIs` | src/transform/tree_sitter.h:36-42 | The colour in force is that of the last non-zero entry, and the default exactly when there is none. |
| `Colour.StripGivesDataBack` | src/transform/tree_sitter.h:155-171 | Stripping the rendering returns the data if and only if the data has no ESC. |
| `Colour.ColoursStick` | src/transform/tree_sitter.h:36-37 | Every byte shows in its own mask colour if and only if colour 0 never follows another colour. |
| `Colour.OwnEscIsLost` | src/transform/tree_sitter.h:155-171 | Data of one ESC does not survive stripping. |
| `Colour.ColourRunsOn` | src/transform/tree_sitter.h:36-37 | The byte after a keyword shows in the keyword's colour. |
| `Cat.Choose` | src/commands/cat.h:68-133 | Exactly when each strategy is used. |
| `Cat.TerminalsGetNoColour` | src/commands/cat.h:83-133 | As terminals are character devices, the test for one changes nothing, and a terminal's output is spliced, whatever was asked for. |
| `Cat.CopyChunks` | src/source/direct_splice.h:37-56 | For any short counts the loop delivers the first `size` bytes of the file, or a prefix after an error, and never blocks. |
| `Cat.Drain` | src/sink/splice.h:24-40 | Stdout plus what is left in the pipe is constant; the drain ends with an empty pipe exactly when the pipe held what was asked for, and blocks otherwise. |
| `Cat.SplicePair` | src/source/splice.h:46-73 | Without errors the pair ends if and only if every fill is whole, and then has delivered the file; in all other cases a prefix is out. |
| `Cat.ShortFillBlocks` | src/source/splice.h:53-63 | A file of two bytes whose first fill delivers one: a fill that is not whole, without any error. |
| `Cat.ReadAndWrite` | src/source/read_file.h:36-61 | Reading and writing delivers the file for any short reads and writes, or a prefix after an error. |
| `Cat.Deliver` | src/commands/cat.h:101-133 | Whatever the non-colour strategy, a run that ends without error has put out exactly the file's bytes. |

## Left out

- System calls, liburing, Hyperscan, RE2, `std::regex` and tree-sitter themselves: they are oracles, constrained only by what the members above require of them.
- Weak memory: atomics are sequentially consistent; there is at least one worker.
- Delivery of the final wake-up (src/commands/grep.h:178-179): shown not to hold.
- What a regex worker prints (src/utils/regex_handler.h:132-159), and its shutdown with work still queued (src/utils/regex_handler.h:121-124): only the hand-over of read slots is modelled.
- The write requests of the event loop (src/utils/event_loop.h:134-137, 297-310) and `src/sink/event_loop_write.h`: parked writes are never drained and a partial write is resubmitted with its full length.
- A read handler that fails (src/utils/event_loop.h:287-290): the only one in the repository never does.
- A kernel that returns a descriptor which is still open; otherwise it takes any part of the submission queue at a time and answers in any order.
- `pump` being called again after it returned an error.
- `pump` as a method: it is a state machine over values, because kernel and workers act between any two of its steps; updates in place and aliasing of requests appear as slot indices.
- EventLoopTheorems.InFlightIsExact: stated while there are fewer than 2^64 slots; `EventLoopSlots.SlotsKept` has the count modulo 2^64 without that.
- TraversalTheorems.OnlyBlockingWorkerMissesBroadcast: says who can miss the call, not that everyone else has left the loop after finitely many steps of an unfair scheduler.
- Dirents.WalkBatch: the buffer is the encoding of some list of records, as the kernel provides it; a malformed buffer has no defined behaviour in the code.
- Colour.FillMask: captures lie within the data, as node ranges of a parse of that data do.
- Output.StdoutIsMergedBatches: speaks of runs without write errors; `Output.Write` and `Output.Batch.Data` say what an error leaves behind.
- Cat.SplicePair: creating the pipe and setting its size, and the failure of either, are not modelled; neither is the same step of the direct splice.
- Cat.Deliver: the size passed in is the length of the file, which does not change during the copy.
- Exceptions, error messages and standard error output.
- `src/pipeline`, `src/concepts`, `src/utils/auto_release.h`, `src/main.cpp`, `src/config`, `src/utils/memcpy_override.cpp`, `src/sink/cout.h`, `src/sink/null_sink.h`, `src/source/mapped_file.h`, `src/source/directory_traverse_source.h`, `src/utils/auto_map.h`, `src/utils/fd_closer.h`: plumbing and thin wrappers; they pass arguments and results through and make no promise of their own.
- `src/sink/send_file.h`, `src/source/zero_copy_read.h`, `src/source/mapped_chunk_file.h`: not used by either command.

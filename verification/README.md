# Verified models of the stateful parts of `tracing`

The `tracing` workspace is, for the most part, plumbing. What is hard to get right sits in a few
stateful components, and those are modelled here:

- **The callsite registry** (`Interests`, `LevelFilters`, `CallsiteRegistry`, `CallsiteProofs`,
  `CallsiteTheorems`, `CallsiteAsked`, `CallsiteListMode`, `CallsiteJustOne`, `CallsiteRace`,
  `CallsiteModes`, `CallsiteWalks`). Every callsite caches how interested the live subscribers are
  in it. Callsites are pushed to a lock-free list, dispatchers come and go, and rebuilds rewrite the
  caches, all concurrently. The model is a transition system over any number of threads, one atomic
  operation, lock operation or question to a subscriber per step.
- **The dispatcher** (`GlobalDefault`, `ScopedDefault`). The one-shot global default; the scoped
  defaults with their guards, the global count that enables a fast path, and the re-entrancy flag.
- **The non-blocking appender** (`NonBlocking`, `WorkerLoop`). Producers, a bounded queue, the
  batching worker, the saturating drop counter and the shutdown handshake.
- **The rolling appender** (`Calendar`, `Rotations`, `LogNames`, `Pruning`, `RollingWrites`,
  `RollingRuns`, `MakeWriter`). The Gregorian calendar, rounding, file names and reading them back,
  pruning, the exclusive write path as a class over a directory, whole runs of it, and the
  concurrent rollover as a state machine.
- **The journald encoder** (`Bytes`, `JournalProtocol`, `JournalNames`, `JournalLayer`). The
  functions that append to a byte buffer, the layer that assembles an event's payload, and a decoder
  for the systemd Native Journal Protocol that is proved to invert them.
- **The log interest cache** (`LogInterestCache`) and **the flamegraph layer** (`Flame`).

Concurrent components are state machines whose executions are sequences of states and actions; a
main result there is a statement about every state of every execution, proved through an invariant
that each step keeps. Sequential components that update their fields are classes whose methods are
proved against functions on values, and the main results are about those functions. Memory is
sequentially consistent, and locks are ideal.

Times are a day number and a second of the day. Clocks, the file system's answers, subscribers'
answers, channel time-outs, hash functions and the results of `write_all` and `flush` are
parameters or actions, so every result holds whatever they are.

Where the code does less than its documentation says, the model follows the code, and the exact
condition is proved:

- A name sanitised for journald may still start with an underscore, although leading underscores
  are said to be stripped: `JournalNames.SanitizedStartsWithUnderscore` says exactly when.
- A field whose sanitised name is empty, sent without a prefix, makes the decoder reject the payload:
  `JournalLayer.EventPayloadDecodes` says exactly when a payload can be read back.
- A nested `get_default` is said to be given `Dispatch::none`. On the fast path it is given the
  global default, and so is one that enters inside a closure on the fast path because another thread
  has made a guard meanwhile: `ScopedDefault.CallIsGivenNoneIff` says exactly when it is given none.
- A callsite whose registration found only one dispatcher can keep a cached interest that is wrong
  for a dispatcher registered meanwhile: `CallsiteRace.JustOneRace` is such an execution.
  `CallsiteModes.RegistrationEndsSoundIff` says exactly when a registration about to ask is sure to
  end with a sound interest by its own steps, whatever dispatcher is the thread's default. The next
  `register_dispatch` that leaves `has_just_one` cleared takes every wrong value back:
  `CallsiteListMode.ListModeIsSound`.
- The value of a field with a fixed name is said not to contain a newline; the encoding carries any value:
  `JournalProtocol.DecodeInvertsExactly`.
- A worker whose flush fails just after it took the shutdown message loses that message, and the
  guard's drop then always runs into its time-out: `NonBlocking.GuardCanMeetIff` says exactly when
  a waiting guard can still meet the worker.
- A rollover that cannot open its file goes on with the old one until one that can, unless pruning
  takes that, when what is written meanwhile is lost: `RollingWrites.FailedOpenKeepsOldFile` for each
  write, `RollingRuns.CurrentFileIsOpenIff` and `RollingRuns.BuffersLandInTheFileInUse` for whole runs.

## Model

| member | source | states |
|---|---|---|
| `Interests.AndLaws` | tracing-core/src/subscriber.rs:658-664 | combining interests is commutative, associative and idempotent, and `sometimes` absorbs |
| `Interests.CommonMeaning` | tracing-core/src/callsite.rs:489-506 | the combined interest is `never` (`always`) exactly when every subscriber asked answers so |
| `Interests.CommonIgnoresOrder` | tracing-core/src/callsite.rs:495-502 | the order of the dispatchers, and asking one twice, make no difference |
| `Interests.CommonSurvivesDrops` | tracing-core/src/subscriber.rs:658-664 | a combined `never` or `always` stays right when subscribers go away |
| `LevelFilters.SetMaxThenCurrent` | tracing-core/src/metadata.rs:704-754 | `current` reads back the filter that `set_max` stored, for every filter and every raw value |
| `LevelFilters.OrderIsInclusion` | tracing-core/src/metadata.rs:980-1020 | a filter lets through the levels up to its own verbosity, and filters compare as the sets of levels they let through, although their numbers run the other way |
| `LevelFilters.LargestMeaning` | tracing-core/src/callsite.rs:407-415 | the maximum computed by a rebuild lets a level through exactly when some hint does |
| `CallsiteProofs.MoveKeepsInv` | tracing-core/src/callsite.rs:307-506 | every step of every thread keeps the registry's invariant (locks, chain, owners, questions asked, walks, caches, maximum level) |
| `CallsiteTheorems.InterestCacheIsSound` | tracing-core/src/callsite.rs:307-320 | in every execution, whenever no `register_dispatch` holds the write lock, a registered callsite caches the combined answer of dispatchers that include all living ones, so `never` and `always` speak for each of them; unless a `JustOne` rebuild stored the value last |
| `CallsiteTheorems.MaxLevelIsSound` | tracing-core/src/callsite.rs:406-421 | at the same points the stored maximum is at least every living dispatcher's hint, one without a hint counting as `TRACE` |
| `CallsiteTheorems.HintsAreHonoured` | tracing-core/src/callsite.rs:408-415 | so it lets through what a living dispatcher's own hint lets through, and everything if some living dispatcher gives no hint |
| `CallsiteAsked.OnlyTheLivingAreAsked` | tracing-core/src/callsite.rs:489-506 | what is stored under a guard is the combined answer, or the largest hint, of everyone registered who is still alive and of nobody who was not alive when the asking began |
| `CallsiteAsked.CombinedOfExactly` | tracing-core/src/callsite.rs:559-571 | if nobody registered died meanwhile, of exactly the living, in any order |
| `CallsiteListMode.ListModeIsSound` | tracing-core/src/callsite.rs:483-506 | in list mode, so from any `register_dispatch` that leaves `has_just_one` cleared, with no `JustOne` rebuild in flight, as long as it stays cleared: whatever was cached before, whenever no writer is active every registered callsite has a sound combined interest, and the maximum level lets through what any living dispatcher's hint does |
| `CallsiteTheorems.ListModeNeverTaints` | tracing-core/src/callsite.rs:542-547 | if at some point no value was stored by a `JustOne` rebuild and none is in flight, none is stored while `has_just_one` stays false |
| `CallsiteJustOne.JustOneMeansAtMostOne` | tracing-core/src/callsite.rs:549-556 | whenever no writer is active `has_just_one` is set exactly if at most one dispatcher is listed, and then at most one registered dispatcher is alive |
| `CallsiteJustOne.OnlyTheLivingAreListed` | tracing-core/src/callsite.rs:550-553 | after `retain` and `push` a `register_dispatch` lists its own dispatcher, only others that were alive when it took the lock, and all that still are |
| `CallsiteJustOne.RetainTerminates` | tracing-core/src/callsite.rs:552 | its own steps lead through `retain` |
| `CallsiteJustOne.DefaultAnswersAreStored` | tracing-core/src/callsite.rs:559-566 | a thread whose default is one dispatcher throughout stores, in a `JustOne` rebuild, that dispatcher's answers and its hint; soundly if that is the one living |
| `CallsiteRace.JustOneRace` | tracing-core/src/callsite.rs:562-566 | an execution that ends with a registered callsite caching `never` although the only dispatcher always wants it |
| `CallsiteModes.RegistrationEndsSoundIff` | tracing-core/src/callsite.rs:542-566 | from every reachable state in which a registration is about to call `rebuilder` and no writer is active, its own steps are sure to end with a sound cached interest, whichever living dispatcher or none is the default, exactly if `has_just_one` is false or every living registered dispatcher answers `never` |
| `CallsiteModes.RegistrationEnds` | tracing-core/src/callsite.rs:314-319 | and its own steps do end, whatever the default answers |
| `CallsiteTheorems.ListHoldsEachPushOnce` | tracing-core/src/callsite.rs:436-462 | following `next` from `list_head` ends, after exactly the callsites whose compare-exchange succeeded, newest first, each once, every registered one among them |
| `CallsiteTheorems.PushNeverMeetsItself` | tracing-core/src/callsite.rs:442-448 | the assertion in `push_default` never fires, whatever threads race in `DefaultCallsite::register` |
| `CallsiteTheorems.ForEachIsComplete` | tracing-core/src/callsite.rs:465-480 | a traversal, concurrent with pushes, visits exactly the callsites linked when it loaded the head, each once, and every locked callsite pushed when it loaded the flag, for the very steps at which this traversal made its loads |
| `CallsiteTheorems.ListWalkIsBounded` | tracing-core/src/callsite.rs:466-472 | on the list a traversal is always at a callsite it has not visited, among those linked when it began |
| `CallsiteWalks.ForEachEnds` | tracing-core/src/callsite.rs:465-480 | in every execution, from any point of a traversal, its thread's own steps lead over the list and the locked vector to its end, unless another thread holds the vector |
| `CallsiteWalks.RebuildGetsToWalk` | tracing-core/src/callsite.rs:406-417 | a full rebuild's own steps lead over the maximum level to its traversal, in either mode |
| `GlobalDefault.GlobalDefaultIsOneShot` | tracing-core/src/dispatcher.rs:299-332 | of all racing calls at most one returns `Ok`; the global is written at most once, by that call, and never read before; every `get_global` returns the winner or nothing, and once the winner always the winner |
| `GlobalDefault.GlobalStays` | tracing-core/src/dispatcher.rs:446-455 | a global default that has been set is never replaced |
| `GlobalDefault.FirstCallWins` | tracing-core/src/dispatcher.rs:299-312 | a call wins, with the dispatcher it was given, exactly if it is the first to try; any other ends with an error and changes nothing |
| `GlobalDefault.WinnerSucceeds` | tracing-core/src/dispatcher.rs:306-328 | the winner writes its dispatcher, publishes it and returns `Ok` |
| `GlobalDefault.SomeoneWins` | tracing-core/src/dispatcher.rs:299-332 | once a call has tried, one has returned `Ok` or is on its way to it |
| `GlobalDefault.GetReturnsTheWinnerIff` | tracing-core/src/dispatcher.rs:446-455 | a `get_global` that finds the initialisation complete returns the winner |
| `ScopedDefault.CountIsTheLiveGuards` | tracing-core/src/dispatcher.rs:841-853 | the scoped count never goes below zero, and is the number of live guards whenever no thread is between its two halves of making or dropping one |
| `ScopedDefault.DefaultIsTheInnermostGuard` | tracing-core/src/dispatcher.rs:841-901 | a thread's default is its innermost guard's dispatcher, and its flag is down exactly while one of its closures holds `Entered` |
| `ScopedDefault.SetDefaultInstalls` | tracing-core/src/dispatcher.rs:841-853 | `set_default` makes the dispatcher it is given the thread's default, above everything open, and touches no other thread |
| `ScopedDefault.DropGuardRestores` | tracing-core/src/dispatcher.rs:889-901 | until its guard is dropped that is the default whenever nothing else is open above, and dropping it brings back the one before |
| `ScopedDefault.ClosureIsGivenTheDefault` | tracing-core/src/dispatcher.rs:379-423 | a closure of `get_default` or `get_current` that runs and is not shut out is given the thread's innermost dispatcher, or failing that the global one |
| `ScopedDefault.FastPathAgrees` | tracing-core/src/dispatcher.rs:379-423 | for `get_default` and `get_current` the fast path does with the closure what the slow path would, exactly when no enclosing closure holds `Entered` or, for `get_default`, there is no global default |
| `ScopedDefault.ClosuresSeeTheInnermost` | tracing-core/src/dispatcher.rs:867-876 | a closure that is not shut out sees the innermost dispatcher installed below it, or failing that the global one |
| `ScopedDefault.OnlyTheOutermostSees` | tracing-core/src/dispatcher.rs:379-423 | while the scoped count stays positive only the outermost closure on a thread sees a real dispatcher |
| `ScopedDefault.OwnGuardForbidsReentry` | tracing-core/src/dispatcher.rs:855-884 | above a guard of its own thread no closure inside another sees one, whatever other threads do |
| `ScopedDefault.ClosingRestores` | tracing-core/src/dispatcher.rs:254-262 | whatever a thread opens, closing it again brings back its earlier default and flag, under any interleaving |
| `ScopedDefault.NestedCallIsShutOutIff` | tracing-core/src/dispatcher.rs:855-861 | `enter` shuts a `get_default` out exactly when the count is positive as it begins and an enclosing call went through `enter` |
| `ScopedDefault.CurrentReturnsNoneIff` | tracing-core/src/dispatcher.rs:400-423 | a `get_current` returns `None` without running its closure under exactly the same condition |
| `ScopedDefault.CallIsGivenNoneIff` | tracing-core/src/dispatcher.rs:370-378 | a `get_default`, nested or not, is given `NONE` exactly when it is shut out in this way or there is neither a guard on its thread nor a global default |
| `ScopedDefault.NestedOnTheFastPathSeesTheGlobal` | tracing-core/src/dispatcher.rs:383-387 | an execution in which a closure and the closure inside it both see the global default |
| `ScopedDefault.NestedAfterAnothersGuardSeesTheGlobal` | tracing-core/src/dispatcher.rs:383-397 | an execution in which another thread's guard lets the inner of two calls `enter`, and both see the global default |
| `NonBlocking.AcceptedLinesAreHandedOver` | tracing-appender/src/worker.rs:30-67 | accepted messages are the received ones followed by the queued ones, and each received line goes to `write_all` once, in the order of acceptance |
| `NonBlocking.DropsAreCounted` | tracing-appender/src/non_blocking.rs:239-252 | completed writes are accepted lines plus drops; the counter is the number of drops up to `usize::MAX`, and 0 in every run that is not lossy |
| `NonBlocking.LossyWriteIsDroppedIff` | tracing-appender/src/non_blocking.rs:239-248 | a lossy write is accepted, as the line it was given and behind all others, exactly if the channel has room and the worker has not left; otherwise it goes on to count a drop |
| `NonBlocking.BlockingWriteIsRefusedIff` | tracing-appender/src/non_blocking.rs:246-251 | any other write is accepted once there is room, and refused exactly if the worker has left |
| `NonBlocking.CountingADrop` | tracing-appender/src/non_blocking.rs:317-338 | counting adds one and ends the call, is tried again if another thread came in between, and stays at the maximum |
| `NonBlocking.WorkerReceives` | tracing-appender/src/worker.rs:30-51 | the worker takes the oldest message if there is one, and otherwise flushes, having found the senders gone exactly if they are |
| `NonBlocking.WorkerLeavesWithoutSenders` | tracing-appender/src/worker.rs:70-85 | once all senders are gone the worker's own successful steps lead to its end |
| `NonBlocking.SendersGoneMeansDrained` | tracing-appender/src/worker.rs:56-85 | a worker that leaves because they are gone has handed over every accepted line |
| `NonBlocking.WaitingWorkerLeaves` | tracing-appender/src/worker.rs:78-88 | a worker that waits for the guard goes on when that is gone, flushes and ends |
| `NonBlocking.LeavesFlushed` | tracing-appender/src/worker.rs:87-89 | a worker that has ended has flushed after everything it wrote |
| `NonBlocking.CounterNeverFalls` | tracing-appender/src/non_blocking.rs:313-338 | under any number of concurrent increments the counter neither wraps nor goes back |
| `NonBlocking.MeetingMeansFlushed` | tracing-appender/src/non_blocking.rs:282-302 | if guard and worker meet, every line enqueued before the shutdown message had been handed to `write_all` and a successful flush had followed, even if writes failed |
| `NonBlocking.FailedFlushMissesTheGuard` | tracing-appender/src/worker.rs:56-85 | once the flush after the shutdown message has failed, guard and worker never meet |
| `NonBlocking.FlushCanFailAfterShutdown` | tracing-appender/src/worker.rs:56-85 | an execution in which it fails, for every capacity of at least one |
| `NonBlocking.GuardCanMeetIff` | tracing-appender/src/non_blocking.rs:282-302 | while the guard waits, some continuation lets it meet the worker if and only if the worker has not missed the shutdown message |
| `NonBlocking.FlushDecides` | tracing-appender/src/worker.rs:63-82 | guard and worker can meet after the flush that follows the shutdown message exactly if it succeeds |
| `WorkerLoop.StopAt` | tracing-appender/src/worker.rs:57-63 | the round goes on exactly over the lines that are written, and stops at the first other result |
| `WorkerLoop.Worker.HandleResult` | tracing-appender/src/worker.rs:30-51 | one result leads to the state and the one write that its kind calls for |
| `WorkerLoop.Worker.Work` | tracing-appender/src/worker.rs:56-67 | one round writes every line up to the first other result, in order, and then flushes, unless a write failed |
| `WorkerLoop.RoundIsWork` | tracing-appender/src/worker.rs:56-85 | in every execution of the whole system each round of the worker, however others interleave, is a run of `work` on what it received: same writes and flush, same messages taken, and the worker waits for the guard exactly when `work` returns shutdown or disconnected |
| `Calendar.DateOfDayNumber` | tracing-appender/src/rolling.rs:629-637 | day numbers and valid Gregorian dates are in one-to-one correspondence (one direction) |
| `Calendar.DayNumberOfDate` | tracing-appender/src/rolling.rs:629-637 | and the other direction |
| `Calendar.EpochIsAThursday` | tracing-appender/src/rolling.rs:545-553 | weekdays count from a Thursday, 1 January 1970 |
| `Rotations.RoundIsFloor` | tracing-appender/src/rolling.rs:528-558 | the rounded time starts a period, is not later than the time, and less than a period earlier |
| `Rotations.RoundIsUnique` | tracing-appender/src/rolling.rs:528-558 | no other period start fits, weeks starting on Sunday |
| `Rotations.NextIsOnePeriodLater` | tracing-appender/src/rolling.rs:512-521 | the next rollover is in the future and exactly one period after the rounded time |
| `Rotations.RoundIsMonotone` | tracing-appender/src/rolling.rs:512-558 | rounding keeps order and is idempotent, and times before the next rollover are exactly those of the same period |
| `LogNames.DatesAreFullDates` | tracing-appender/src/rolling.rs:560-569 | daily names have the full-date form of section 5.6 of RFC 3339 |
| `LogNames.NamesShowThePeriod` | tracing-appender/src/rolling.rs:560-569 | hourly and minutely names add the hour and the minute |
| `LogNames.FormatRoundTrip` | tracing-appender/src/rolling.rs:560-569 | parsing a formatted time gives back every component the format shows, leaving the rest of the text |
| `LogNames.NameRoundTrip` | tracing-appender/src/rolling.rs:813-833 | for any prefix and suffix, reading the date from a file's name gives the rounded time it was made from |
| `LogNames.ParsedDateIsFormatted` | tracing-appender/src/rolling.rs:828-832 | apart from signed years, only the text of some time in the rotation's format is parsed as a date |
| `LogNames.SameNameIffSamePeriod` | tracing-appender/src/rolling.rs:629-653 | two times share a file exactly when they share a period |
| `LogNames.NeverNames` | tracing-appender/src/rolling.rs:643-652 | without rotation the name is prefix and suffix with a dot between, and the date only if there is neither |
| `LogNames.OwnNamesPassFilter` | tracing-appender/src/rolling.rs:669-702 | the files of a rotating appender pass the pruning filter, and their date can be read from the name |
| `Pruning.SortSorts` | tracing-appender/src/rolling.rs:713-714 | sorting by age orders the candidates and keeps each exactly as it was |
| `Pruning.PruneKeepsTheNewest` | tracing-appender/src/rolling.rs:655-726 | pruning leaves at most one less than the maximum of eligible files, and everything not eligible |
| `Pruning.PruneTakesTheOldest` | tracing-appender/src/rolling.rs:713-725 | no file removed is newer than a file kept, other than those whose removal failed |
| `Pruning.RemovedAreLogs` | tracing-appender/src/rolling.rs:663-700 | whatever is removed is a regular file whose name starts with the prefix and ends with the suffix, or with neither is a date, and whose age is known |
| `Pruning.EarlierGoesFirst` | tracing-appender/src/rolling.rs:691-714 | of two log files with creation times the later one is removed only if the earlier one is, or cannot be |
| `Pruning.AgeFromName` | tracing-appender/src/rolling.rs:691-699 | without a creation time the age of an own file is the start of the period in its name |
| `RollingWrites.RollingFileAppender.New` | tracing-appender/src/rolling.rs:587-626 | a new appender has pruned its directory and opened the file of the current period; if the file cannot be opened there is none, but the directory is pruned |
| `RollingWrites.RollingFileAppender.PruneOldLogs` | tracing-appender/src/rolling.rs:655-726 | collecting, sorting and deleting remove exactly the oldest eligible files in excess |
| `RollingWrites.RollingFileAppender.AdvanceDate` | tracing-appender/src/rolling.rs:772-781 | the compare-exchange installs the next rollover time exactly if nobody else did |
| `RollingWrites.RollingFileAppender.RefreshWriter` | tracing-appender/src/rolling.rs:728-748 | the writer is replaced by the file of the current period if that opens, and kept if not |
| `RollingWrites.RollingFileAppender.Write` | tracing-appender/src/rolling.rs:226-236 | a write is the specified function of the appender, its directory, the time and the buffer |
| `RollingWrites.RolloverIffNewPeriod` | tracing-appender/src/rolling.rs:758-770 | under a clock that does not go back, a write rolls over exactly when the period has changed since the last one |
| `RollingWrites.WriteLandsInItsPeriod` | tracing-appender/src/rolling.rs:226-236 | the buffer ends up behind what the file named after the current time held, no other file changes, and a file is opened exactly at a change of period |
| `RollingRuns.EveryBufferLandsInItsFile` | tracing-appender/src/rolling.rs:226-236 | over any sequence of writes whose files can be opened every file that is left holds what it held before and then exactly the buffers of its period, in order, and one file is opened per period entered |
| `RollingRuns.BuffersLandInTheFileInUse` | tracing-appender/src/rolling.rs:728-748 | the same with any rollovers failing to open their file: the file of the last that succeeded is in use, and every file that is left holds what it held before and then exactly the buffers written while it was in use |
| `RollingRuns.CurrentFileIsOpenIff` | tracing-appender/src/rolling.rs:728-781 | after any such run the file of the current period is open exactly if the last rollover could open it |
| `RollingWrites.CreatedInPeriod` | tracing-appender/src/rolling.rs:587-626 | a new appender is ready for the period of its creation, where such sequences begin |
| `RollingWrites.CreatedKeepsContent` | tracing-appender/src/rolling.rs:613-626 | creation keeps the content of the file it opens and of every other file but those it prunes |
| `RollingWrites.RolloverLeavesAtMostMax` | tracing-appender/src/rolling.rs:728-748 | a rollover leaves at most `max_files` eligible files, the new one among the files, and ineligible entries untouched |
| `RollingWrites.AtMostMaxOwnFiles` | tracing-appender/src/rolling.rs:655-748 | so at most `max_files` of the files that the appender ever made are left |
| `RollingWrites.NeverStays` | tracing-appender/src/rolling.rs:512-521 | without rotation the one file is kept for ever |
| `RollingWrites.FailedOpenKeepsOldFile` | tracing-appender/src/rolling.rs:735-747 | every write that opens no file, be it at a rollover that fails or later in that period, goes to the file in use exactly if that still has its name and is not among the files just pruned |
| `RollingWrites.OnlyFileIsTaken` | tracing-appender/src/rolling.rs:709-725 | with a limit of one file, pruning takes exactly the eligible files, the one in use among them |
| `RollingWrites.PrunedWhileInUse` | tracing-appender/src/rolling.rs:728-748 | so a new appender with that limit that cannot open its second file is left without any, and the buffer is lost |
| `MakeWriter.EachRolloverIsWonOnce` | tracing-appender/src/rolling.rs:245-257 | however the threads' clocks disagree, every successful compare-exchange moves the rollover time forward, none is won twice, and refreshes never outnumber wins |
| `MakeWriter.NextNeverGoesBack` | tracing-appender/src/rolling.rs:758-781 | the rollover time never goes back, and changes exactly at a win |
| `MakeWriter.NotDueIsNotTried` | tracing-appender/src/rolling.rs:758-770 | a call goes on to the compare-exchange exactly if its clock has reached the rollover time it finds |
| `MakeWriter.DueRolloverIsWon` | tracing-appender/src/rolling.rs:245-257 | by the end of such a call some thread has won since its check; if it was this one it refreshes the writer next, and the new rollover time is past its clock |
| `JournalProtocol.LengthRoundTrip` | tracing-journald/src/lib.rs:578-587 | a length below 2 to the 64 survives its eight little-endian bytes |
| `JournalProtocol.DecodeInvertsExactly` | tracing-journald/src/lib.rs:578-621 | decoding gives back the encoded fields exactly when all of them are well named, whatever bytes their values hold |
| `JournalNames.SanitizedIsAccepted` | tracing-journald/src/lib.rs:590-598 | only characters that journald accepts are left |
| `JournalNames.SanitizeIsIdentityOnAccepted` | tracing-journald/src/lib.rs:590-598 | an acceptable name is left alone |
| `JournalNames.SanitizeChangesOnlyCase` | tracing-journald/src/lib.rs:590-598 | in a name of letters, digits and underscores only lower case changes |
| `JournalNames.SanitizeIsBytewise` | tracing-journald/src/lib.rs:590-598 | behind the leading underscores and dots sanitising works byte by byte: dots become underscores, small letters capitals, and all else but letters, digits and underscores goes |
| `JournalNames.SanitizedStartsWithUnderscore` | tracing-journald/src/lib.rs:594-597 | the exact condition under which a leading underscore survives |
| `JournalNames.UnderscoreSurvives` | tracing-journald/src/lib.rs:594-597 | the name `-_x` is one for which it does |
| `JournalLayer.Buffer.PutValue` | tracing-journald/src/lib.rs:617-621 | a value is appended behind its length |
| `JournalLayer.Buffer.PutFieldLengthEncoded` | tracing-journald/src/lib.rs:578-587 | patching the length in place gives the length-encoded form of the field |
| `JournalLayer.Buffer.PutFieldWellformed` | tracing-journald/src/lib.rs:606-610 | a field with a fixed name takes the same form |
| `JournalLayer.Buffer.PutMetadata` | tracing-journald/src/lib.rs:549-567 | target, file and line are appended under the prefix, those that exist |
| `JournalLayer.DefaultMappingIsLossless` | tracing-journald/src/lib.rs:532-540 | by default the level can be told from the priority, a severity of section 6.2.1 of RFC 5424 |
| `JournalLayer.Layer.WithCustomFields` | tracing-journald/src/lib.rs:217-227 | custom fields accumulate, unprefixed |
| `JournalLayer.Layer.OnNewSpan` | tracing-journald/src/lib.rs:304-318 | a span's buffer encodes its name, metadata and prefixed fields |
| `JournalLayer.Layer.OnRecord` | tracing-journald/src/lib.rs:320-328 | later records are added behind them |
| `JournalLayer.Layer.OnEvent` | tracing-journald/src/lib.rs:330-359 | the payload encodes the spans' fields from the root, then priority, metadata, identifier, custom and event fields, and decodes to exactly these when all are well named |
| `JournalLayer.EventIsNamed` | tracing-journald/src/lib.rs:330-354 | by their literal names, what an event's payload consists of, in order |
| `JournalLayer.EventFieldsAreNamed` | tracing-journald/src/lib.rs:401-431 | a field `message` is sent as `MESSAGE`, every other one under the prefix, an underscore and its sanitised name |
| `JournalLayer.SpanFieldsAreNamed` | tracing-journald/src/lib.rs:369-392 | span fields all take the prefix |
| `JournalLayer.CustomFieldsAreNamed` | tracing-journald/src/lib.rs:217-227 | custom fields never do |
| `JournalLayer.EventMetadataIsNamed` | tracing-journald/src/lib.rs:549-567 | the literal names of target, file and line of an event |
| `JournalLayer.SpanMetadataIsNamed` | tracing-journald/src/lib.rs:304-311 | and of a span |
| `JournalLayer.PriorityIsMapped` | tracing-journald/src/lib.rs:278-290 | each level is sent as the digit of the severity it is mapped to |
| `JournalLayer.RootComesFirst` | tracing-journald/src/lib.rs:333-342 | the spans' entries come in the order of the scope, whole |
| `JournalLayer.PrefixedName` | tracing-journald/src/lib.rs:369-415 | when a prefix and a sanitised name make a usable field name |
| `JournalLayer.SpanIsWellNamed` | tracing-journald/src/lib.rs:304-328 | what a span contributes is readable exactly when its users' names are usable |
| `JournalLayer.EventPayloadDecodes` | tracing-journald/src/lib.rs:330-359 | the decoder reads back exactly the intended fields if and only if every user-given name is usable |
| `JournalLayer.NamelessFieldIsMalformed` | tracing-journald/src/lib.rs:578-598 | a field with nothing acceptable in its name makes the decoder reject the payload from there on |
| `LogInterestCache.PackLevel` | tracing-log/src/interest_cache.rs:197-202 | level and length can be read back from their packed form, the length if it fits 61 bits |
| `LogInterestCache.Pack` | tracing-log/src/interest_cache.rs:181-226 | masked hash and interest can be read back from their packed form |
| `LogInterestCache.KeyDeterminesLevel` | tracing-log/src/interest_cache.rs:192-202 | records of different levels or addresses never share a key |
| `LogInterestCache.Process.Configure` | tracing-log/src/interest_cache.rs:156-159 | a new configuration moves the epoch |
| `LogInterestCache.Process.SetInterest` | tracing-log/src/interest_cache.rs:122-125 | so does a rebuild in the registry |
| `LogInterestCache.ThreadState.constructor` | tracing-log/src/interest_cache.rs:96-104 | a thread's state begins empty, at the current epoch |
| `LogInterestCache.ThreadState.TryCache` | tracing-log/src/interest_cache.rs:161-230 | a call answers and changes the state as the specified lookup does, after a new state if the epoch moved |
| `LogInterestCache.TryCacheAgreesWithTheFilter` | tracing-log/src/interest_cache.rs:161-230 | after any lookups, evictions, reconfigurations and rebuilds, and whatever others change during the call, the answer is the filter's own; with no rebuild during the call, the current filter's |
| `LogInterestCache.CollisionSharesTheAnswer` | tracing-log/src/interest_cache.rs:205-218 | if two records share key and masked hash, the second is answered rightly exactly when the filter treats both alike |
| `LogInterestCache.RepeatIsCachedIff` | tracing-log/src/interest_cache.rs:166-174 | after a reset with a configuration a repeated lookup is answered from the cache exactly if there is room and the level is at least as verbose as configured |
| `LogInterestCache.UnconfiguredAlwaysAsks` | tracing-log/src/interest_cache.rs:26-33 | without a configuration nothing is cached |
| `LogInterestCache.HoldsTheMostRecent` | tracing-log/src/interest_cache.rs:60-63 | the cache holds exactly the most recently seen level and target pairs, as many as fit, in order |
| `Flame.FlameLayer.OnEnter` | tracing-flame/src/lib.rs:390-419 | entering a span writes the parent's stack and the time since the last event, unless it is a root and empty samples are off |
| `Flame.FlameLayer.OnExit` | tracing-flame/src/lib.rs:421-464 | leaving a span writes its stack and the time since the last event, unless the thread panics |
| `Flame.FlameLayer.Fold` | tracing-flame/src/lib.rs:399-413 | the stack is written span by span from the root |
| `Flame.ThreadLocals.TimeSinceLastEvent` | tracing-flame/src/lib.rs:472-482 | the time since the last event, which is now this one |
| `Flame.EventIsChargedToTheStack` | tracing-flame/src/lib.rs:390-464 | in a well-nested run each line is about the stack in force before the event, and is left out exactly when that is empty and empty samples are off |
| `Flame.LineRoundTrip` | tracing-flame/src/lib.rs:415-418 | stack and sample can be read back from a line |
| `Flame.FoldedRoundTrip` | tracing-flame/src/lib.rs:399-413 | split at its semicolons, a stack's text is the thread's name, or the common one, and then the spans' texts in order from the root |
| `Flame.SpanTextReads` | tracing-flame/src/lib.rs:485-508 | a span's text is its name with the module path before it and file and line behind, each if wanted and known |
| `Flame.SamplesMeasureTime` | tracing-flame/src/lib.rs:390-482 | the samples of any selection of stacks, read back from the output, add up to exactly the nanoseconds during which such a stack was active |
| `Flame.AllTimeIsCharged` | tracing-flame/src/lib.rs:284-300 | with empty samples they add up to the time from `START` to the last event |
| `Flame.TimeInsideSpansIsCharged` | tracing-flame/src/lib.rs:284-300 | without, to exactly the time spent inside some span |

## Left out

- CallsiteTheorems.InterestCacheIsSound: nothing is claimed of values stored by a `JustOne` rebuild, which asks only the caller's current default; that default is an input of the model.
- CallsiteListMode.ListModeIsSound: a `JustOne` rebuild still in flight when list mode begins is excluded; it may store a wrong value later, which stays until the next rebuild of that callsite.
- CallsiteTheorems.MaxLevelIsSound: in the same way it speaks of maximum levels stored under a guard.
- RollingRuns.EveryBufferLandsInItsFile: a file that pruning removed just before its period began again holds that period's buffers alone; a file removed later is not spoken of.
- RollingWrites.RolloverLeavesAtMostMax: it assumes that removals succeed and that the listing is complete.
- Pruning.PruneTakesTheOldest: a file whose removal failed is kept, whatever its age.
- MakeWriter.EachRolloverIsWonOnce: which file a delayed winner opens is not modelled; it may reopen an older one.
- LogInterestCache.TryCacheAgreesWithTheFilter: it assumes that records of equal key and masked hash have equal targets; `CollisionSharesTheAnswer` says what happens otherwise. The epoch is unbounded, so its wrap-around is not modelled.
- Flame.SamplesMeasureTime: one thread's lines; lines of other threads go to the same writer in between.
- Concurrent components are modelled on values, not as objects: the registry's list, the dispatcher's statics and thread-locals, the channel and the counter are state machine variables, so update in place and aliasing are in the steps, not in a heap.
- Weak memory orderings, lock poisoning, and the reference counts behind `upgrade`: a dispatcher is alive until it is dropped.
- The `no_std` dispatchers, and feature flags that remove parts of the code.
- The value that `DefaultCallsite::register` returns: the loser of a race gets `sometimes`, which is always safe; everyone else gets the cached interest spoken of above.
- Calling the public `register` twice on one `DefaultCallsite`, which bypasses its registration flag.
- Subscribers that call back into the registry while they are asked, and so would take its locks again.
- A dispatcher made by `Dispatch::none` and installed as a default counts as a dispatcher, not as `NONE`.
- Guards dropped out of order or on another thread, thread-locals that are already destroyed, and `set_default` inside a `get_default` closure, which panics.
- `has_been_set`: a flag that only ever goes up.
- Timeouts as durations, and liveness: that a time-out strikes, or that a thread is scheduled, is never assumed.
- Times before 1970 for the appender, fractions of a second, the setting of a local time zone, and years that the `time` crate cannot represent.
- `max_files` of zero, symbolic links to the newest log, partial writes to a file, and the flush of the rolling appender.
- What journald does beyond parsing: the decoder's rule is that a name is not empty and has neither a newline nor `=`; journald may drop names with a leading underscore or digit, or read an empty line as the end of an entry.
- Sending a journald payload: sockets and memory files. Values of 2 to the 64 bytes and more.
- UTF-8 in journald names beyond single bytes: every byte of a multi-byte character is unacceptable, so all of them are filtered out, as the character would be.
- Parsing and display of levels and filters, span macros, attribute macros, futures, error and serde support, mocks, examples and benchmarks: forwarding, or finite tables.

# Forge, modelled and proved in Dafny

Forge is a job engine: one controller process, forked workers, a FIFO for control lines and a directory of job
records. This project models it in Dafny and proves what it is for.

- **The data path.** `Fips180.dfy` writes FIPS 180-4 down, `KnownAnswer.dfy` computes the self test's answer by it,
  and `Sha256.dfy` is the streaming class proved against it. `Ranges.dfy` cuts a file into slices, `Reader.dfy` reads
  a slice in one of three ways into one of three sinks, and `Worker.dfy` turns it into the slot a worker publishes.
- **The shared region.** `Protocol.dfy` is a transition system of the workers and the controller in which any worker
  can be killed at any step. Memory is modelled with views: a release increment of `chunks_done` carries what its
  worker wrote and what earlier increments carried, and an acquire load joins that view.
- **The verdict.** `Results.dfy` is `results_ok`, and the theorem that what it accepts is correct.
- **The controller.** `ControllerSpec.dfy` has its handlers as functions of the state and of an oracle that answers
  for the kernel, the file system and the clocks. `Controller.dfy` is the class with the source's own fields and
  loops: each method is equal to its function, keeps the joint invariant, and ensures what `Handlers.dfy` shows the
  handler is for. `History.dfy` has the log of everything the controller does to the outside world and the rules this
  log obeys; as the world is a function of the log, a crash is a cut of the log. `ControllerInv.dfy`,
  `ControllerKeeps.dfy`, `ControllerLaunch.dfy` and `ControllerLines.dfy` prove the joint invariant handler by
  handler, `ControllerLog.dfy` that the log only grows, `CalmLogs.dfy` which handlers send no signals,
  `ControllerProgress.dfy` how jobs move on and how shutdown winds down, `ControllerOrder.dfy` the launch order,
  `ControllerRecovery.dfy` and `Leftovers.dfy` what a restart fails, launches and kills, and `ControllerRuns.dfy` puts
  whole runs together, with any number of crashes. The theorems about runs are in `Guarantees.dfy` (memory, signals,
  shutdown), `Records.dfy` (the records, and exactly when one stops being true), `Outcomes.dfy` (how jobs end, and the
  end-to-end theorems), `Requests.dfy` (what each control line, timer and reaped process does at once), `Launches.dfy`
  (when a job runs and on what), `Delivery.dfy` (that signals reach every process) and `FinalWrites.dfy` (the end of a
  job when power can fail). `CleanRecords.dfy` and `CleanRuns.dfy` show that what the controller saves can be read
  back. `Counterexamples.dfy` has two concrete runs that show what the conditions on records are for.
- **The store.** `Text.dfy`, `MetaCodec.dfy` and `Procs.dfy` are the text formats with their round trips,
  `Validate.dfy` is `validate_meta`, `CrashFs.dfy` is durable replacement of a file on a directory that can lose power
  at any call, `TwoWriters.dfy` is a worker and the controller doing so in one directory at once, and `Fifo.dfy` is
  the framing of control lines.

## What is assumed of the environment

- The input file does not change between `inspect_file` and the last read; a job directory's name is the id in its
  record; `list_job_ids` has no duplicates; no record that somebody else wrote is unreadable. That the controller's own
  records are readable is proved (`CleanRuns.RecordsReadBack`), for texts of the environment that fit on a line.
- Properties of a record that need its saves to reach the disk say so for that record: its id is not in `world.lost`,
  the ids of the `SaveLost` effects of the log (`History.SetsOfLog`). Properties that need fork not to return a pid that
  `pid_owner` still holds say so with `newPids`. `Counterexamples.LostSavesLaunchTwice` and
  `Guarantees.ReusedPidIsForgotten` show what happens otherwise.
- The monotonic clock does not go back and stays below 2^64 milliseconds. `futex_wait` and `futex_wake` have the
  Linux meaning; `Protocol.WakingOneIsNotEnough` shows that a wake of one waiter would not do.
- After a crash each name of a directory is, independently, one of the files it has named since the last fsync of
  that directory; the bytes of a file that was not fsynced can be anything.

## Where the code and what is said of it differ

- A terminal state is not always final: a SUBMIT line for a job that is still running, handled after SHUTDOWN, makes
  `enqueue` save the record as cancelled behind the job's back (controller.cpp:455-464), and `finalize` later saves
  another state over it. `world.behind` is the set of these jobs. `Records.BehindExactly` says at exactly which steps of
  a run a job enters it, `Records.RecordTrueExactly` that only their records differ from memory,
  `Records.OverwrittenJobEndsTwice` and `Records.EndsTwiceExactly` that a terminal record is replaced in these cases
  only, and `Counterexamples.RecordsDoNotAlwaysRise` is a run in which it happens. For every other job
  `Records.RecordsOnlyRise` holds.
- forge.hpp:206 says a child writes nothing shared before it sees the gate open; `worker_entry` publishes failures
  earlier (worker.cpp:611-615). `Protocol.FailureBeforeTheGate` is a trace in which the slot of a worker that failed in
  setup is stored while the gate is shut, and `Protocol.SlotsBeforeTheGate` says which slots these are: exactly those of
  workers that gave up in setup or in the wait.
- `parse_i64` negates INT64_MIN, which C++ leaves undefined; `Text.ParsedI64` keeps that case apart.

## Model

| member | source | states |
|---|---|---|
| `Sha256Stream.Sha256.Update` | worker.cpp:50-61 | appending bytes keeps the invariant that ties the hash words, the buffer and the 64-bit bit counter to all bytes seen, for any split into calls |
| `Sha256Stream.Sha256.Final` | worker.cpp:66-87 | the result is the FIPS 180-4 digest of all bytes seen, padded as section 5.1.1 says |
| `Sha256Stream.Sha256.PadZeros` | worker.cpp:72-75 | the padding loop, which may wrap at 64, adds exactly the smallest number of zeros that section 5.1.1 asks for |
| `Sha256Stream.Sha256.UpdateRaw` | worker.cpp:112-125 | whole blocks are absorbed in order and the rest is kept, for any length |
| `Sha256Stream.Sha256.Transform` | worker.cpp:136-186 | one block updates the hash words as section 6.2.2 of FIPS 180-4 says |
| `Sha256Stream.Schedule` | worker.cpp:151-159 | the in-place message schedule is the recursive one |
| `Sha256Stream.RunRounds` | worker.cpp:160-177 | the 64-round shift-register loop is the recursive definition of the rounds |
| `Fips180.ZeroCountIsSmallest` | worker.cpp:69-75 | the padding length is the least that leaves 56 modulo 64 |
| `Fips180.ChainIsLoop` | worker.cpp:112-125 | the hash of a sequence of blocks is each block in turn applied to the hash value of those before |
| `Fips180.LengthReads` | worker.cpp:76-79 | the last eight bytes of the padding denote the length in bits, most significant first |
| `KnownAnswer.AbcText` | worker.cpp:716-721 | the digest of "abc" as text is the one the self test compares with, for which every constant and rotation of the standard has to be right |
| `Ranges.Split` | forge.hpp:134-180 | on 64-bit integers, without wrap-around, the loops give the closed form |
| `Ranges.SplitPartitions` | forge.hpp:134-180 | for all sizes, worker counts and alignments the slices are contiguous and cover the file exactly; there are `workers` of them unless the input is empty or less than one block, and then one |
| `Ranges.SplitIsEven` | forge.hpp:145-154 | byte mode: lengths differ by at most one, longer ones first |
| `Ranges.SplitIsAligned` | forge.hpp:157-179 | aligned mode: every offset and every length but the last is a multiple of the alignment, and block counts differ by at most one |
| `Ranges.ThinAlignedSplit` | forge.hpp:128-179 | aligned mode with at least one block: the last slice is the leftover bytes alone if and only if there are more workers than blocks, and otherwise holds at least one block |
| `Ranges.PartitionJoins` | forge.hpp:116-133 | the slices of a partition joined in order are the file, and their lengths add up to its size |
| `Reader.FeedRange` | worker.cpp:206-376 | whatever is refused, interrupted or cut short, the sink has been given a prefix of the range, on success exactly the range; without refusals it succeeds; no O_DIRECT read of an existing range is unaligned |
| `Reader.FeedMapped` | worker.cpp:224-264 | mmap from a page boundary: the bytes past the prefix are the range |
| `Reader.PageStart` | worker.cpp:237-247 | the mapping offset is page-aligned and less than a page before the range |
| `Reader.FeedBuffered` | worker.cpp:347-376 | pread with short reads delivers the range in order, once |
| `Reader.FeedDirect` | worker.cpp:266-345 | aligned blocks then the buffered tail deliver the same bytes; an aligned range is never read unaligned |
| `Reader.Fill` | worker.cpp:295-312 | reading until the batch is full under short reads gives exactly those bytes of the file |
| `Reader.Sink.Accept` | worker.cpp:378-418 | each sink's state is its function of the bytes accepted so far |
| `Reader.OutFile.WriteAll` | store.cpp:37-56 | a prefix of the data is written, all of it on success, under EINTR and short writes |
| `Worker.RunOperation` | worker.cpp:639-702 | a finished operation's slot is a function of the slice alone, whatever the I/O mode; with no refusal it finishes; an operation that fails has left no output, or, for a copy whose directory fsync failed after the rename, the whole file |
| `Protocol.Operate` | worker.cpp:639-702 | whatever the operation does is a step the transition system allows |
| `Worker.HexTextReads` | worker.cpp:188-196 | digits 2i and 2i+1 of the text are lower-case hexadecimal digits, by character code, and denote byte i, the high half first |
| `Worker.HexOf` | worker.cpp:188-196 | the loop gives that text |
| `Protocol.NextKeepsInv` | worker.cpp:487-708 | every step of every worker and of the controller, and every kill, keeps the protocol invariant |
| `Protocol.TraceInv` | forge.hpp:202-213 | every state of every interleaving satisfies it |
| `Protocol.CounterIsExact` | worker.cpp:516-534 | `chunks_done` never passes `nchunks`, and reaches it exactly when every worker has counted |
| `Protocol.LoadSeesAllSlots` | controller.cpp:302-307 | an acquire load that returns `nchunks` makes every slot visible, in whatever order the increments came |
| `Protocol.SlotHasOneWriter` | worker.cpp:516-534 | slot i changes only by worker i storing it, once |
| `Protocol.OkSlotSawTheGate` | worker.cpp:611-632 | an ok slot comes from a worker that saw the gate open |
| `Protocol.FailureBeforeTheGate` | worker.cpp:611-615 | for every job there is a trace in which a failed slot is stored while the gate is shut |
| `Protocol.SlotsBeforeTheGate` | worker.cpp:611-632 | in every trace, a slot is stored by a worker that never saw the gate open if and only if that worker gave up in setup or in the wait |
| `Protocol.WakesFollowIncrements` | controller.cpp:666-682 | wakes drained and pending never exceed the increments |
| `Protocol.NoLostWakeUp` | worker.cpp:487-514 | once the gate is stored and woken no worker is asleep, then or later |
| `Protocol.WakingOneIsNotEnough` | worker.cpp:584-588 | a wake of one waiter leaves another asleep in a reachable state |
| `Protocol.CleanExitMeansCleanSlots` | controller.cpp:302-318 | when all workers are reaped with exit 0 the next load returns `nchunks` and every slot is the result of its slice |
| `Results.ResultsOk` | controller.cpp:289-374 | the verdict, the body and the reason of every rejection, with 64-bit sums |
| `Results.CompletedMeansCorrect` | controller.cpp:286-374 | over every interleaving and kill, and whatever a slot outside the view of the acquire load reads as, accepted if and only if every worker exited 0, and then the body is the specified function of the whole file |
| `Procs.CleanExitText` | controller.cpp:222-227 | the text "exited:0" means exit status 0 and nothing else |
| `Procs.FormatProcs` | controller.cpp:128-135 | the loop writes the list as comma-separated entries |
| `Procs.ParseProcs` | controller.cpp:102-126 | the character loop reads exactly the entries between commas |
| `Procs.ProcsRoundTrip` | controller.cpp:102-135 | reading back gives the processes with a positive pid, and so the same list exactly when every pid is positive |
| `Procs.JoinExits` | controller.cpp:277-284 | the exits field lists how each process ended, a question mark for one not reaped |
| `Procs.ExitsSplit` | controller.cpp:277-284 | between commas there is one text for each process, in order |
| `Text.ParseU64` | store.cpp:70-87 | accepts exactly the non-empty digit strings below 2^64; the division guard is exact |
| `Text.DecIsPositional` | store.cpp:70-87 | printed numbers are positional in base ten, with no leading zero |
| `Text.ParseInvertsDec` | store.cpp:70-87 | reading inverts decimal printing |
| `Text.ParseInvertsDecInt` | store.cpp:89-108 | the same for signed values, except the smallest |
| `Text.CastsWrap` | store.cpp:89-108 | the casts to int64_t and int keep the value modulo their width |
| `MetaCodec.NamesAreTexts` | forge.hpp:90-98 | every text is the text of the state, operation or I/O name it is read as |
| `MetaCodec.TextsAreNames` | forge.hpp:90-98 | and every name is what its text is read as, so names and texts correspond one to one |
| `MetaCodec.ReadMeta` | store.cpp:474-500 | the line loop is the recursive reader |
| `MetaCodec.LinesPassedOver` | store.cpp:474-500 | empty lines, comments and unknown keys are passed over, a line without `=` is an error |
| `MetaCodec.LineNames` | store.cpp:446-472 | each field is written under its own name |
| `MetaCodec.StateReadsBack` | store.cpp:446-500 | what is read back of a record without newlines has the record's state, whatever its other texts are |
| `MetaCodec.RoundTrip` | store.cpp:446-500 | `text_to_meta` inverts `meta_to_text` if and only if the record is clean |
| `Validate.ValidExactly` | store.cpp:399-444 | which records are accepted, told by their fields and numbers |
| `Validate.ValidFitsTheRegion` | store.cpp:399-444 | an accepted record gets between 1 and 16 slices, one if its operation is sequential |
| `Validate.ValidMakesAJob` | controller.cpp:494-517 | an accepted record of a built-in operation, with the size of its file, is a job the shared region is made for |
| `Validate.DirectSlicesAreAligned` | controller.cpp:512-514 | the slices of a direct job begin on multiples of 4096 and all but the last have such a length |
| `History.RecordsRise` | forge.hpp:67-85 | in a lawful log the state of a record that was not lost or replaced behind its job's back only rises, and a terminal one stays |
| `History.LoopsOnce` | controller.cpp:545-558 | in a lawful log a job reaches the fork loop at most once |
| `History.StopsInOrder` | controller.cpp:176-194 | in a lawful log two stop rounds of a launch are SIGTERM, then SIGKILL more than a second later |
| `History.KillFollowsTerm` | controller.cpp:690-704 | in a lawful log every SIGKILL round has its SIGTERM round in the same launch, more than a second before |
| `History.LoopsOfLog` | controller.cpp:545-558 | the world's list of launches is the fork loops of the log in order |
| `History.SignalsGoToChildren` | controller.cpp:176-184 | in a lawful log a signal has a matching fork and no waitid in between |
| `History.CompletedAfterOutput` | controller.cpp:404-413 | in a lawful log completed follows the output, and the digest says the same |
| `History.TrimsNewlines` | controller.cpp:394-401 | the digest of a record is the body without exactly the newlines at its end |
| `History.SetsOfLog` | controller.cpp:92-100 | the two sets are exactly the ids of lost saves and of saves behind a live job's back |
| `History.SavedOverEnd` | forge.hpp:67-85 | in a lawful log the next save after a terminal record replaces a terminal record |
| `ControllerSpec.Best` | controller.cpp:423-443 | the scan finds a queued job before all others, or there is none |
| `ControllerSpec.RemoveAll` | controller.cpp:417-417 | erase-remove: membership, distinctness and shrinking |
| `ControllerSpec.RemoveAllKeepsOrder` | controller.cpp:417-417 | and the others stay in their order |
| `Controller.Controller.PickNext` | controller.cpp:423-443 | the loop with its running best equals that scan |
| `Controller.Controller.SignalJob` | controller.cpp:176-184 | one signal for each process not reaped, after the round is logged |
| `Controller.Controller.RequestStop` | controller.cpp:186-194 | only the first reason is kept, with its time; keeps the invariant |
| `Controller.Controller.ReleaseRuntime` | controller.cpp:157-174 | the job's pids and its slot are given back |
| `Controller.Controller.MarkReaped` | controller.cpp:240-249 | the loop marks exactly the process with that pid, and finds whether all are reaped and whether any went wrong |
| `Controller.Controller.NoteReap` | controller.cpp:230-255 | marks the process, stops the job on a bad exit, finalizes it when all are reaped; keeps the invariant and the queue, and launches nothing |
| `Controller.Controller.Judge` | controller.cpp:383-403 | the final record as a function of the verdict and the stop reason |
| `Controller.Controller.Finalize` | controller.cpp:376-419 | saves, output, release and forgetting, in that order; the job is gone and its record over |
| `Controller.Controller.Schedule` | controller.cpp:445-452 | the loop equals the recursive scheduler; it ends because the queue shrinks, with no slot free, nothing queued, or shutting down; keeps the invariant |
| `Controller.Controller.LaunchJob` | controller.cpp:490-543 | every way a launch can end before the fork loop |
| `Controller.Controller.Spawn` | controller.cpp:545-633 | the fork loop, its failure path, and what a successful launch records |
| `Controller.Controller.Enqueue` | controller.cpp:454-488 | every branch of SUBMIT; keeps the invariant, and unless shutting down the job is live or its record over |
| `Controller.Controller.OnCancel` | controller.cpp:635-664 | every branch of CANCEL; keeps the invariant, and the job is not live or told to stop |
| `Controller.Controller.Shutdown` | controller.cpp:717-731 | cancels the queue, then stops what runs; keeps the invariant, with nothing queued and every job told to stop |
| `Controller.Controller.HandleLine` | controller.cpp:716-752 | dispatch, with the number read by `parse_u64`; keeps the invariant |
| `Controller.Controller.OnDeadline` | controller.cpp:684-688 | stops a job whose deadline timer exists; keeps the invariant |
| `Controller.Controller.OnTick` | controller.cpp:690-704 | SIGKILL for jobs told to stop more than a second ago, once; keeps the invariant, and no SIGKILL is due afterwards |
| `Controller.Controller.Recover` | controller.cpp:781-808 | leftovers killed, in-progress records failed, waiting ones queued; keeps the invariant, and every record belongs to a live job or is over |
| `ControllerKeeps.NoteReapKeeps` | controller.cpp:230-255 | reaping keeps the joint invariant |
| `ControllerKeeps.FinalizeKeeps` | controller.cpp:376-419 | so does the end of a job, which leaves all other jobs and records alone |
| `ControllerLaunch.LaunchKeeps` | controller.cpp:490-633 | so does a launch, whatever fails; the job is dropped or runs |
| `ControllerLines.ScheduleKeeps` | controller.cpp:445-452 | so does scheduling, which ends with the slots full, the queue empty or shutting down |
| `ControllerLines.EnqueueKeeps` | controller.cpp:454-488 | so does SUBMIT |
| `ControllerLines.OnCancelKeeps` | controller.cpp:635-664 | so does CANCEL |
| `ControllerLines.ShutdownKeeps` | controller.cpp:716-732 | so does SHUTDOWN, after which nothing is queued and every job has a stop reason |
| `ControllerLines.OnTickKeeps` | controller.cpp:690-704 | so does the tick |
| `ControllerLines.RecoverKeeps` | controller.cpp:781-808 | recover keeps the invariant, and afterwards every record belongs to a live job or is terminal |
| `ControllerRecovery.TurnSeesTheStart` | controller.cpp:781-808 | each turn of recover's loop finds the record that was there when recover began, and its job not live |
| `ControllerRecovery.RecoverSeparates` | controller.cpp:781-808 | the records in progress when recover began say failed afterwards (unless a save was lost) and the terminal ones are as they were; none of these jobs is live or goes through the fork loop; a waiting job is live or its record is terminal |
| `ControllerRecovery.RestartsSeparate` | controller.cpp:781-808 | so it is at every restart of every run |
| `Leftovers.RestartKillsLeftovers` | controller.cpp:781-799 | at every restart, of each process that the record of a job in progress lists, the start time is asked for once, and exactly the processes for which it is the recorded one are killed |
| `ControllerRuns.NextKeepsInv` | controller.cpp:842-891 | every event, and every crash at any effect followed by a restart, keeps the invariant and adds to the log |
| `ControllerRuns.RunKeepsInv` | controller.cpp:842-891 | every state of every run satisfies it |
| `ControllerRuns.RunLogGrows` | controller.cpp:842-891 | the log of a run only grows, across restarts |
| `ControllerProgress.RunningJobsMoveOn` | controller.cpp:716-752 | in every event a running job keeps its record, its processes and its first stop reason |
| `ControllerProgress.ShutdownOnlyWindsDown` | controller.cpp:838-891 | while shutting down every event only winds down |
| `ControllerProgress.IdleWhenAllReaped` | controller.cpp:838-840 | idle if and only if nothing is left to reap, and then no slot or pid is held |
| `ControllerOrder.DrainOrderIsSorted` | controller.cpp:423-443 | the order of picks is the eligible queue sorted by priority descending and id ascending |
| `ControllerOrder.HigherPriorityFirst` | controller.cpp:423-443 | what comes first in it has the higher priority, or the same priority and the smaller id |
| `ControllerOrder.PicksFollowTheOrder` | controller.cpp:445-452 | each call of schedule takes the next jobs of that order and leaves the rest |
| `ControllerOrder.QueueDrainsInOrder` | controller.cpp:423-452 | over any turns of reaping and scheduling a fixed queue drains in that order |
| `ControllerOrder.LaunchesAreAmongPicks` | controller.cpp:445-452 | the fork loops one call of schedule adds to the log are among its picks, in the same order |
| `ControllerOrder.LaunchesFollowTheOrder` | controller.cpp:423-452 | over any turns of reaping and scheduling the fork loops these add to the log follow the sorted order |
| `Guarantees.JointInvariant` | controller.cpp:66-80 | in every state of a run: the queue is exact and duplicate-free, other jobs run and wait for a process, the slot count is exact and in bounds |
| `Guarantees.BadExitStopsTheJob` | controller.cpp:241-252 | over every run a job with a process that did not exit 0 has a stop reason |
| `Guarantees.RecordListsProcesses` | controller.cpp:604-606 | over every run the record of a running job, read back, is exactly the list of its processes, unless a save of it was lost or made behind its back |
| `Guarantees.PidOwnerIsExact` | controller.cpp:157-174 | with new pids, `pid_owner` is exactly the pids of live jobs under their own job |
| `Guarantees.ReusedPidIsForgotten` | controller.cpp:157-174 | when a launch is given the pid of a reaped process of a live job, the end of that job makes the controller forget the new process |
| `Records.LaunchedAtMostOnce` | controller.cpp:466-473 | across crashes, restarts and repeated SUBMIT lines each job none of whose saves was lost reaches the fork loop at most once |
| `Counterexamples.LostSavesLaunchTwice` | controller.cpp:466-484 | a run in which the saves are lost and a job reaches the fork loop twice |
| `Records.RecordsOnlyRise` | forge.hpp:67-85 | over every run the saves of a job never lower its record and none follows a terminal one, unless one of its own saves was lost or made behind its back |
| `Records.EndsTwiceExactly` | controller.cpp:455-464 | over every run, a record with no lost save has a terminal state replaced if and only if it was saved again after a save behind its job's back |
| `Records.BehindExactly` | controller.cpp:455-464 | a job enters that set at exactly the steps that handle SUBMIT of it, live, with a record not terminal, while shutting down, if the save works |
| `Records.RecordTrueExactly` | controller.cpp:454-488 | over every run the record of a live job with no lost save is the job's own if and only if the job is not in that set; otherwise it says cancelled |
| `Records.OverwrittenJobEndsTwice` | controller.cpp:376-419 | the reap that ends such a job saves over a terminal record, whatever the verdict |
| `Counterexamples.RecordsDoNotAlwaysRise` | controller.cpp:454-464 | a run without lost saves in which a record goes from cancelled to completed |
| `Records.SubmitKeepsRecordsTrue` | controller.cpp:454-488 | a SUBMIT leaves every live job's record true if and only if it does not name a live job during shutdown |
| `Guarantees.KillComesAfterTerm` | controller.cpp:690-704 | over every run every SIGKILL round comes after a SIGTERM round of the same launch, by more than a second |
| `Guarantees.StopSignalsInOrder` | controller.cpp:690-704 | and of two rounds of a launch the first is SIGTERM and the second SIGKILL, so the rounds are a prefix of the two |
| `Guarantees.SignalsHitChildren` | controller.cpp:176-184 | over every run no signal goes to a process already reaped |
| `Guarantees.CompletedFollowsOutput` | controller.cpp:404-413 | over every run, crashes included, completed is saved only after this launch's output |
| `Guarantees.LeftoversMatch` | controller.cpp:789-797 | recover kills only processes whose recorded start time is the one seen |
| `Guarantees.ShutdownDrains` | controller.cpp:716-732 | from SHUTDOWN on the queue is empty, stop reasons stay and the processes to be reaped never become more |
| `Guarantees.NoLaunchAfterShutdown` | controller.cpp:445-446 | and the log shows no fork loop |
| `Guarantees.ExitMeansDrained` | controller.cpp:838-853 | the loop may exit exactly when all processes are reaped |
| `Guarantees.FirstStopReasonStays` | controller.cpp:186-188 | over every run the first stop reason of a live job never changes |
| `Outcomes.FinalizeOutcome` | controller.cpp:386-414 | the terminal state is a function of the verdict and the first stop reason; a completed text job's output is the body |
| `Outcomes.ReapOutcome` | controller.cpp:230-255 | so it is for the reap that ends a job, whose own bad exit is the stop reason if it is the first |
| `Outcomes.BuiltInJobEndToEnd` | controller.cpp:286-419 | at the step of any run at which a built-in job leaves: if every worker exited 0 it is completed, with the specified function of the input as output and as the record's digest, or failed if that output could not be written; otherwise the first stop reason names the state |
| `Outcomes.ExecJobEndToEnd` | controller.cpp:289-294 | at the step of any run at which an exec job leaves, it is completed if and only if its process exited 0; otherwise the first stop reason names the state |
| `Records.CancelOvertakesSubmit` | controller.cpp:635-650 | a CANCEL before its SUBMIT leaves the job cancelled, and the SUBMIT changes nothing |
| `Records.CancelTakesEffect` | controller.cpp:651-663 | a queued job is gone with a cancelled record, a running one has a stop reason, the first one it got |
| `Records.ShutdownCancelsTheQueue` | controller.cpp:720-721 | the record of every queued job says cancelled, unless its save was lost |
| `Requests.CancelLineTakesEffect` | controller.cpp:635-664 | over every run, after a CANCEL line a queued or unknown job is not live and its record is terminal, cancelled unless it was over before; a running job has a stop reason, cancelled unless it had one |
| `Requests.SubmitLineTakesEffect` | controller.cpp:454-488 | over every run, after a SUBMIT line a valid waiting record has been saved as queued and its job is live or its launch has failed, with no slot free it is queued, with a slot free nothing is; an invalid one says failed with the complaint, and during shutdown cancelled; otherwise nothing changes |
| `Requests.ShutdownLineTakesEffect` | controller.cpp:717-731 | over every run, after SHUTDOWN the queue is empty with its records cancelled, and each running job has a stop reason, shutdown unless it had one |
| `Requests.OtherLinesDoNothing` | controller.cpp:716-752 | a line that is none of the three forms changes nothing |
| `Requests.DeadlineTimesOut` | controller.cpp:684-688 | over every run, a deadline gives a running job with a timer and no stop reason the reason "timed out", and changes no other reason |
| `Requests.ReapTakesEffect` | controller.cpp:230-255 | over every run, a reap marks that process with its status, the job leaves exactly when no process is left, a bad exit is the stop reason "failed" if it is the first, and no other job changes |
| `Launches.LaunchOutcome` | controller.cpp:490-633 | a launch makes a job run if and only if input, log, region and one fork for each slice are granted; it then has those children, and a deadline timer if and only if one was asked for and granted; otherwise its record says failed, with the reason |
| `Launches.ScheduleStartsJobs` | controller.cpp:445-452 | over every run, a turn of schedule leaves each queued job queued, running as such a launch leaves it, or failed; running jobs are left alone, and nothing waits while a slot is free |
| `Launches.SubmitStartsJobs` | controller.cpp:476-487 | so does a SUBMIT, for its own job too |
| `Launches.OnlyReapsEndJobs` | controller.cpp:230-255 | over every run, a running job leaves only at the reap of a process of its own |
| `Delivery.RoundsAreDelivered` | controller.cpp:176-184 | over every run, each stop round a step logs is followed in that step by the signal to every process of the job that has a positive pid and is not reaped |
| `Delivery.StopReachesEveryProcess` | controller.cpp:186-194 | so the step that gives a job its stop reason sends SIGTERM to each such process, and the step that escalates it SIGKILL |
| `Delivery.TickEscalates` | controller.cpp:690-704 | over every run, a tick escalates exactly the jobs told to stop more than 1000 ms before it and not escalated yet, and changes nothing else of any job |
| `FinalWrites.FinalizeWrites` | controller.cpp:404-414 | finalize logs exactly these writes in this order: persisting, output, final record |
| `FinalWrites.ReapWrites` | controller.cpp:230-255 | and the log of the reap that ends a job ends with them |
| `FinalWrites.FinalRecord` | controller.cpp:376-413 | over every run, the step at which a job leaves ends with the save of its own record, with one text for each process in `exits`, the time, and an error if and only if it is not completed, except that a failed output write gives the error of the system |
| `FinalWrites.PersistFinal` | controller.cpp:404-414 | for the reap that ends a text job of a run whose record is durable, the records written to disk are those of the run's log, and wherever power fails during these writes a record that reads as completed implies the durable complete output |
| `FinalWrites.CopyFinal` | worker.cpp:674-698 | for the reap that ends a copy job of a run, over any interleaving of the worker's publish with the controller's saves and during the final save, a record that reads as completed implies the durable complete copy |
| `TwoWriters.CallKeeps` | store.cpp:531-601 | each call of a writer keeps what it has achieved and changes the crash outcomes of its own name only, to old or new |
| `TwoWriters.OtherKeeps` | store.cpp:531-601 | what one writer has achieved survives every call of another in the same directory |
| `TwoWriters.PublishedIsDurable` | worker.cpp:674-698 | over any interleaving with the controller's saves the record never reads as completed, and a publish that reported success stays durable |
| `CleanRuns.RecordsReadBack` | store.cpp:603-618 | over every run, crashes included, every record the controller saves is read back as it was saved, if the created records are clean and the environment's texts fit on a line |
| `CleanRecords.ProblemIsLine` | store.cpp:399-444 | what `validate_meta` complains about fits on a line |
| `CleanRecords.WhyIsLine` | controller.cpp:289-374 | so does every reason `results_ok` gives, if the texts of the slots do |
| `CrashFs.JobDir.AtomicWriteFile` | store.cpp:531-584 | wherever power fails the name holds what it could hold before or the new bytes, no other name changes, and success means durable |
| `CrashFs.JobDir.Publish` | store.cpp:586-601 | the same for file fsync, rename and directory fsync of a file that holds the bytes |
| `CrashFs.JobDir.CopyOutput` | worker.cpp:674-698 | the same for the output of a copy |
| `CrashFs.JobDir.PersistResult` | controller.cpp:404-414 | at every crash point of the three writes, a record that reads as completed implies a durable complete output |
| `CrashFs.JobDir.CopyThenSave` | worker.cpp:694-698 | the same for a copy followed by the final save, with no other writer in between |
| `CrashFs.RenameIsOldOrNew` | store.cpp:572-575 | a rename of a synced file adds one outcome and no torn one |
| `CrashFs.SyncDirMakesDurable` | store.cpp:576-582 | after the directory fsync the new bytes are the only outcome |
| `Fifo.ControlFifo.Drain` | controller.cpp:754-779 | one drain, whatever the read sizes: all complete lines, or nothing beyond the limit |
| `Fifo.LinesAppend` | controller.cpp:771-778 | later bytes only complete the residue |
| `Fifo.OverflowCostsOneDrain` | controller.cpp:754-779 | a drain over 65536 bytes loses the residue and its own bytes, and what follows is framed as a new stream |
| `Fifo.FramingIgnoresChunking` | controller.cpp:754-779 | over a run within the limit the lines are those of the byte stream, the residue its unfinished line |
| `Fifo.WrittenLinesArrive` | controller.cpp:771-778 | lines that a writer ends with a newline, after a carriage return or not, are the lines handled, in order, with nothing left over |

## Left out

- `LiveJob` is a value in a map, not an object that handlers hold a reference to; a reference kept across `erase` would not show. Its notify handle, log descriptor and timer id are reduced to whether the deadline exists.
- The signals of `kill` on a process group and on a process are one effect; whether a child is its own group leader is recorded but has no consequence.
- on_event, status.txt, log texts and `strerror` texts: they change nothing the properties speak of. Error texts from the system come from the oracle.
- The events of one `Poller::wait` batch are separate events, and the CLI writes records between events, not inside one; `main.cpp` is only that writer.
- `load_meta` always succeeds on a record that exists, and a lost save leaves the old record whole, which is what `CrashFs.JobDir.AtomicWriteFile` shows. A save counts as lost when the record was not replaced, whatever `save_meta` returned.
- allocate_job_id: ids are taken as unique. `setrlimit`, nice, affinity, `fadvise`, snapshots and `execve` are the steps `SetupDone`, `SetupFails` and an exit status.
- A worker whose shared region is missing exits with status 2 before it does anything; the controller always creates the region first. An exec worker has no region and no slot.
- `offset & ~(page - 1)` is written as arithmetic, for a page size that is a power of two.
- The operating-system layers in os/linux and os/mac, except for the call semantics listed above.
- Reader.FeedMapped: for mmap the range has to exist, because a mapping of a file that shrank would show zeros or kill the worker.
- Leftovers.RestartKillsLeftovers: it is about the processes the record lists; a worker forked before the running save is not among them, so the code does not kill it.
- CrashFs.JobDir.PersistResult: no text of the records may hold a newline, as a newline in an error text could forge a line. The characters of these files stand for bytes.
- Buffers of the data path are sequences, except for the hash words and the block buffer of `Sha256`, which are arrays updated in place.

# Verified model of the HandBrake encoding service

A Dafny 4.11 model of the service's job manager, encode runner and publish step, with
the smaller modules they rest on. `dafny verify dfyconfig.toml` checks everything.

What is modelled, in the service's own terms:

- **The job manager** (`JobProtocol`, `JobInvariant`, `JobTheorems`, `JobManager`). Any
  number of submits, deletes, sweeps, shutdowns, restarts and worker threads interleave.
  A critical section with at most one access to data that some thread touches without
  the lock is one step; the others are split there: `_claim` at its read of the cancel
  event and its store of the status, the sweep and shutdown loops at each read. Each
  unlocked store is a step of its own: the put after submit's unlock, the get, each
  terminal field store, each cancel event shutdown sets.
  `JobManager` has the same steps as methods that update objects in place; each method's
  postcondition is the protocol step it performs, and `Interleave` makes the calls of any
  run of the protocol.
- **The encode runner** (`Scanner`, `Stream`, `JsonText`, `EncodeProcess`,
  `ProcessClock`). The brace scanner is proved against a grammar of quoted strings and
  balanced blocks, the read loop against one scan of the whole stream, and printed JSON
  (RFC 8259 sections 4, 5 and 7) is followed through both. The child process, the cancel
  watcher and the main thread are a three-party state machine, with a clock for what the
  timeout bounds.
- **The publish step** (`FileSystem`, `Publish`). Names, symbolic links, inodes,
  descriptors and the reuse of inode numbers; calls of other processes between any two
  system calls; a possible failure of each system call.
- **Running encodes** (`LiveEncodes`). The job protocol with a live encode process for
  each called job, sharing its cancel event: what shutdown does to the children.
- **The service** (`Service`). The job protocol with `run_encode_job` as the job function
  and the encode process inside it: what a job's terminal status says about the child's
  exit and the published file.
- **Smaller parts**: probe caches (`ProbeCache`), help-text parsers (`HelpText`), derived
  names (`Paths`), the body limit (`Limits`), the preset tree (`Presets`).

In the job manager time is any integer a caller reads; `json.loads` is any function
from slices to outcomes; the inode number of a new file and the moves of other processes
are inputs.

Where the code and its prose differ, the model follows the code:

- `shutdown()` says that a submit is either caught by its snapshot or rejected. It is,
  but the put comes after the unlock, so an accepted job can land behind the sentinels
  and stay queued (`AcceptedJobCanStayQueued`). Exactly which jobs: with no worker dead,
  the submits in flight at the last sentinel (`StrandedExactly`); whichever workers die,
  the items never taken, which are those behind the last item taken if that was a
  sentinel (`StrandedBehindSentinel`).
- `_claim` says it decides atomically. Delete takes its lock; shutdown sets the cancel
  event without it, and can do so between the read and the store. So a job can start
  after the cancel loop with its event set (`CancelledJobCanStart`): exactly the one, if
  any, whose worker is between the two (`CancelledCanStartIff`, `StartsAfterShutdownIff`).
- A worker killed by a BaseException leaves its sentinel in the queue, and a worker of a
  later `start()` takes it (`RestartCanLoseItsWorker`; how far: `PoolIsEmptyIff`).
- `start()` sets its flag before its threads run. If one cannot be started it raises, and
  a second call does nothing: a running manager with fewer workers, or none
  (`StartCanLeaveNoWorker`).
- `run_encode` cleans up after its child only once the watcher thread runs. If that
  thread cannot be started the child is left alive, and a kill may not work in time;
  exactly these two outcomes leave it (`LeavesChildIff`).
- `parse_progress_objects` says malformed objects are skipped rather than raised on; only
  JSONDecodeError is caught, so another exception of the decoder ends the read loop
  (`DecodeRaisesIff`, `IncrementalEqualsBatch`).
- `_MAX_BUFFER_BYTES` is compared with a number of characters, and only on lines with a
  closing brace (`CapHolds`, `BufferIsUnbounded`).
- Clearing the buffer loses an object that starts on the line that ends another
  (`LostObject`), and dropping it at the cap loses one that is open then
  (`DroppedObject`). There is no third way; `BoundaryIsExact` is the exact condition.
- The staging file is said never to be left behind; it is when the preset's temporary
  file cannot be made or written, or the handler's close fails, or the removal does
  (`StagingLeftIff`). A failing `os.close` is repeated, and may then close a descriptor
  of another thread (`RepeatedCloseHitsAnother`); a temporary file that cannot be made
  leaks the descriptor (`ClosedOnceIff`).
- The identity check follows symbolic links and the rename does not
  (`LinkIsPublishedAsIs`), and between the close and the rename nothing anchors the inode
  number any more (`ForeignFileIsPublished`). What is published is the staging path's
  entry at the rename (`PublishedIsClaimed`).

## Model

| member | source | states |
|---|---|---|
| JobInvariant.InvKept | app/job_manager.py:141-292 | every step of every thread keeps the invariant: each accepted job is in exactly one place with fields that fit it, unfinished jobs are covered, the backlog and the sentinels add up, the lock has one holder |
| JobInvariant.ForwardKept | app/job_manager.py:44-57 | no step clears a cancel event, takes back a started run, or changes a terminal job's fields |
| JobInvariant.SingleWriter | app/job_manager.py:44-57 | a step that changes the status, progress, error or finish time of an accepted job is made by the one worker that holds it |
| JobInvariant.EndingStep | app/job_manager.py:46-57 | a job that is being ended, or has ended, was there one step before already, unless its holder moved it |
| JobTheorems.ReachableInv | app/job_manager.py:130-292 | the invariant holds in every state any interleaving reaches |
| JobTheorems.BacklogConserved | app/job_manager.py:182-197 | the counter is the submits before their put plus queued jobs plus jobs taken but not yet uncounted; never negative, never above the limit |
| JobTheorems.AcceptedIff | app/job_manager.py:182-196 | a running manager takes a new job exactly when no limit is set or fewer jobs than the limit wait, counted where they are |
| JobTheorems.AcceptAdds | app/job_manager.py:195-196 | an accepted submit adds one queued job with nothing set to the store and to the count |
| JobTheorems.EnabledIff | app/job_manager.py:130-292 | each step of each thread can be taken exactly when the thread is there and the lock, if it takes it, is free: nothing else is waited for |
| JobTheorems.StoreChanges | app/job_manager.py:196-236 | a job enters the store only by its submit and leaves it only by its delete or with a sweep that has it on its list |
| JobTheorems.ProgressIsStored | app/ops.py:121 | progress becomes the value stored, and only that field changes |
| JobTheorems.StatusStep | app/job_manager.py:22-30 | observed statuses move queued to running or cancelled, running to a terminal status, one store at a time |
| JobTheorems.TerminalIsComplete | app/job_manager.py:261-292 | between any two stores a terminal job has finished_at, a failed one its error, a completed one progress 100, one cancelled without a run its cancel event |
| JobTheorems.StoresInOrder | app/job_manager.py:264-292 | made one after the other, the terminal stores publish the status last; finish time, error and progress are there by then, and before it the job looks unfinished |
| JobTheorems.EndsAsFinished | app/job_manager.py:267-292 | however the job function ended and whatever happens meanwhile, the terminal record has the status for it, and the exception's text |
| JobTheorems.TerminalIsPermanent | app/job_manager.py:261-292 | no later interleaving, restarts included, changes a terminal job except to set its cancel event |
| JobTheorems.AtMostOnce | app/job_manager.py:245-268 | a job function is called at most once, never for a queued job, once for a running, completed or failed one |
| JobTheorems.CancelledIsNeverRun | app/job_manager.py:239-249 | a queued job whose cancel event is set, and whose claim has not read it clear before, is never run in any continuation |
| JobTheorems.CancelledCanStartIff | app/job_manager.py:245-249 | a queued job whose event is set can still be run exactly when a worker is between the read and the store of its claim |
| JobTheorems.CancelledJobCanStart | app/job_manager.py:245-249 | a run in which shutdown sets the event and ends its cancel loop between the two, and the job starts |
| JobTheorems.OneLaunching | app/job_manager.py:245 | the lock admits one worker to that place |
| JobTheorems.DeletedIsNeverRun | app/job_manager.py:204-216 | a job deleted while queued leaves the store and is never run, with no exception: delete takes the lock of the claim |
| JobTheorems.SingleOwner | app/job_manager.py:44-57 | no two workers hold the same job |
| JobTheorems.RunningBound | app/job_manager.py:124-127 | running jobs never outnumber the live worker threads |
| JobTheorems.SweepRemovesOnlyOverdue | app/job_manager.py:218-237 | with workers storing meanwhile, the sweep removes only terminal jobs with a finished_at past the TTL |
| JobTheorems.SweepRemovesAllOverdue | app/job_manager.py:227-236 | and it removes every job that was terminal and past the TTL when it took the lock |
| JobTheorems.NoWindow | app/job_manager.py:151-158 | at every moment an accepted unfinished job is in the store or told to stop |
| JobTheorems.ShutdownCoversAll | app/job_manager.py:159-163 | once shutdown's cancel loop is over every accepted unfinished job is told to stop |
| JobTheorems.OnlyTheseTell | app/job_manager.py:163-215 | a cancel event is set by its job's delete or by shutdown, and by nothing else |
| JobTheorems.ShutdownSparesFinished | app/job_manager.py:161-163 | a job that is finished before shutdown looks at it is not told to stop |
| JobTheorems.NothingStartsAfterShutdown | app/job_manager.py:159-168 | from then until the next start() no job starts running and no run count grows, but for one whose worker is inside its claim |
| JobTheorems.StartsAfterShutdownIff | app/job_manager.py:159-168 | exactly that job can still start, and there is at most one |
| JobTheorems.SentinelsConserved | app/job_manager.py:164-168 | queued plus owed sentinels equal live plus dead workers, over restarts and deaths |
| JobTheorems.StartCreatesWorkers | app/job_manager.py:134-139 | start() creates as many threads as configured, and one if fewer than one is |
| JobTheorems.PoolIsEmptyIff | app/job_manager.py:130-139 | while running with no sentinel queued the pool is the thread list minus the workers that died; it is empty exactly when those numbers are equal |
| JobTheorems.PoolSurvives | app/job_manager.py:277-288 | with fewer deaths than threads some worker is live |
| JobTheorems.NoWorkerWaitsForever | app/job_manager.py:251-255 | after the sentinels are put a waiting worker finds an item, and a sentinel is among those to come |
| JobTheorems.DrainBounded | app/job_manager.py:251-292 | after the sentinels, any run without a restart has at most a fixed number of puts and worker steps, job functions' own work aside |
| JobTheorems.LiveWorkerSteps | app/job_manager.py:251-292 | after the sentinels, while a worker is live some worker has a step to take |
| JobTheorems.DrainEndsEmpty | app/job_manager.py:164-168 | where the drain can go no further every worker is gone and no submit is in flight |
| JobTheorems.DrainLeaves | app/job_manager.py:146-158 | what is then unfinished is exactly what is still queued, with one sentinel for each dead worker; if nobody died, exactly what was in flight at the last sentinel |
| JobTheorems.QueueIsFifo | app/job_manager.py:121-123 | over any run the queue is what was there and was put, in order, without what was taken |
| JobTheorems.StrandedExactly | app/job_manager.py:159-168 | whichever workers die, what never finishes is what stays queued; with no worker dead, the accepted jobs that never finish are exactly the submits between unlock and put when the last sentinel was put |
| JobTheorems.StrandedBehindSentinel | app/job_manager.py:251-292 | whichever workers die, they are the items never taken; if the last item taken is a sentinel, the jobs behind that sentinel, which has as many behind it as workers died |
| JobTheorems.AcceptedJobCanStayQueued | app/job_manager.py:195-198 | a run that leaves an accepted job queued, told to stop, with no worker left |
| JobTheorems.RestartCanLoseItsWorker | app/job_manager.py:277-288 | a run after which the restarted manager is running with no live worker |
| JobTheorems.StartCanLeaveNoWorker | app/job_manager.py:131-139 | a run after which a manager whose first thread could not be started is running, has accepted a job, and has no worker |
| JobManager.JobRecord.constructor | app/job_manager.py:59-71 | a new job is queued, with no progress, error, finish time or cancel |
| JobManager.Manager.constructor | app/job_manager.py:105-128 | a new manager is the protocol's initial state |
| JobManager.Manager.Start | app/job_manager.py:130-134 | start() sets running and goes on to spawn at least one thread; a second call changes nothing |
| JobManager.Manager.SpawnWorker | app/job_manager.py:134-139 | one more waiting worker on the thread list |
| JobManager.Manager.AbandonStart | app/job_manager.py:133-139 | a thread that cannot be started ends start() with running set and the threads made so far |
| JobManager.Manager.Submit | app/job_manager.py:181-198 | accepted exactly when running and below the limit; otherwise nothing changes, and the not-running answer is a failed job with an error and a finish time |
| JobManager.Manager.Put | app/job_manager.py:197 | the put after the unlock is the protocol's put step |
| JobManager.Manager.Lookup | app/job_manager.py:200-202 | the stored job of that id, if any |
| JobManager.Manager.Delete | app/job_manager.py:204-216 | a stored job leaves the store and is told to stop in one step; an unknown id changes nothing |
| JobManager.Manager.SweepAll | app/job_manager.py:227-237 | with no worker storing meanwhile, the store loses exactly the overdue jobs and the count is theirs |
| JobManager.Manager.BeginSweep | app/job_manager.py:227-230 | the sweep takes the lock with the time read before it |
| JobManager.Manager.ReadStatus | app/job_manager.py:231-232 | one status read, as a step of its own |
| JobManager.Manager.ReadStamp | app/job_manager.py:231-234 | one finished_at read and TTL comparison, as a step of its own |
| JobManager.Manager.EndSweep | app/job_manager.py:235-237 | the expired jobs leave the store and are counted |
| JobManager.Manager.BeginShutdown | app/job_manager.py:159-160 | running is cleared under the lock before the snapshot |
| JobManager.Manager.ReadForShutdown | app/job_manager.py:161 | one status read of the snapshot |
| JobManager.Manager.NextPhase | app/job_manager.py:161-168 | leaving the lock, the cancel loop and the sentinel loop |
| JobManager.Manager.CancelForShutdown | app/job_manager.py:162-163 | one cancel event set, without the lock |
| JobManager.Manager.PostSentinel | app/job_manager.py:164-165 | one sentinel put |
| JobManager.Manager.Join | app/job_manager.py:166-168 | the thread list is cleared whether or not the threads ended |
| JobManager.Manager.TakeItem | app/job_manager.py:253-256 | the first item leaves the queue; a sentinel ends the worker |
| JobManager.Manager.UncountTaken | app/job_manager.py:257-260 | the slot is freed under the lock, before the claim |
| JobManager.Manager.ReadClaim | app/job_manager.py:245-247 | the claim goes on exactly when the cancel event was clear at the read |
| JobManager.Manager.LaunchJob | app/job_manager.py:248-249 | the store of the status and the call that follows |
| JobManager.Manager.ReportProgress | app/ops.py:121 | a running job's progress is what its function stores |
| JobManager.Manager.LeaveFunction | app/job_manager.py:267-290 | the worker leaves the call in one of the four ways its handlers tell apart |
| JobManager.Manager.StoreNext | app/job_manager.py:262-292 | the next terminal store; after the last the worker waits again, or is dead after a BaseException |
| JobManager.Manager.Interleave | app/job_manager.py:130-292 | for any run of the protocol, the calls of its steps in that order take the objects through it |
| JobManager.FromStart | app/job_manager.py:105-292 | from a new manager on, any such calls leave it in a reachable state with the invariant |
| Scanner.EveryTextDecomposes | app/handbrake_runner.py:98-132 | every text is noise, strings and balanced blocks followed by what is left open |
| Scanner.ScannerIsExact | app/handbrake_runner.py:88-132 | for any such reading the scanner cuts out exactly the top-level blocks in order, and its depth is the number of blocks left open; braces in strings and after backslashes never count |
| Scanner.SlicesAreTheBlocks | app/handbrake_runner.py:88-132 | the same for every text, with the reading supplied |
| Scanner.DecodeRaisesIff | app/handbrake_runner.py:124-130 | parsing raises exactly when the decoder raises something other than a decode error on some block |
| Scanner.ParseProgressObjects | app/handbrake_runner.py:98-132 | the four-variable loop returns the dicts among the blocks, in order, or raises |
| Stream.ReadLoop | app/handbrake_runner.py:212-261 | the read loop computes the line-by-line specification |
| Stream.IncrementalEqualsBatch | app/handbrake_runner.py:216-260 | for every cut into lines in which no line that completes an object, or drops the buffer at the cap, ends inside something, the loop handles what one scan of the whole text finds, and aborts exactly when that decode raises |
| Stream.AbortedWith | app/handbrake_runner.py:216-260 | when the decoder raises, the loop has handled what the lines before the raising one hold, and nothing of that line |
| Stream.ClearIsSafeIff | app/handbrake_runner.py:221-227 | forgetting the scanner's state is harmless for every continuation exactly when it is at rest |
| Stream.BoundaryIsExact | app/handbrake_runner.py:221-260 | for every stream that decodes, clears and drops alike, that condition holds exactly when, wherever the stream stops, loop and batch scan agree on the next object |
| Stream.LostObject | app/handbrake_runner.py:260 | two lines of which the loop handles one object and the batch scan two: the second starts where the first ends |
| Stream.DroppedObject | app/handbrake_runner.py:228-236 | two lines of which the loop handles no object and the batch scan one: it is open when its text passes the cap |
| Stream.CapHolds | app/handbrake_runner.py:228-237 | after a line with a closing brace the buffer fits the cap |
| Stream.DropsIff | app/handbrake_runner.py:217-237 | a line that completes nothing drops the buffer exactly when it holds a closing brace and takes it past the cap; otherwise it is appended |
| Stream.BufferIsUnbounded | app/handbrake_runner.py:217-219 | no bound holds of lines without a closing brace |
| Stream.RecoversAfterDrop | app/handbrake_runner.py:40-49 | after a drop the rest is handled exactly as a stream of its own, whatever came before |
| JsonText.ReadsJson | app/handbrake_runner.py:91-93 | any printed JSON value, with any whitespace and escapes, is balanced text |
| JsonText.PrintedScan | app/handbrake_runner.py:88-132 | from a stream of printed objects and noise the scanner cuts exactly the objects' texts |
| JsonText.StreamRoundTrip | app/handbrake_runner.py:212-260 | under that condition alone the read loop handles exactly the printed objects, in order, none lost, none repeated |
| EncodeProcess.RunInv | app/handbrake_runner.py:207-298 | every interleaving of child, watcher and main thread keeps the invariant |
| EncodeProcess.ReturnsIff | app/handbrake_runner.py:290-291 | run_encode returns exactly when stdout ended, the wait after it did not run out and the child exited 0 |
| EncodeProcess.CancelledMeans | app/handbrake_runner.py:293-294 | HandBrakeCancelled only with the event set and a non-zero exit |
| EncodeProcess.CancelIsReported | app/handbrake_runner.py:290-298 | with the event set before run_encode ends, stdout at its end, no timeout and a failed child, the outcome is HandBrakeCancelled; it is never the plain error |
| EncodeProcess.OutcomeIff | app/handbrake_runner.py:190-298 | which outcome it is, for all eight, from what main can see just before the end |
| EncodeProcess.EveryOutcomeHappens | app/handbrake_runner.py:190-298 | a run for each outcome |
| EncodeProcess.OutcomeMeans | app/handbrake_runner.py:190-298 | the other outcomes, by what went before them; a failing watcher start is the one with a child and no watcher |
| EncodeProcess.KillsHaveCauses | app/handbrake_runner.py:263-286 | a kill follows only a cancel, a timeout after the end of stdout, or an aborted read |
| EncodeProcess.NoChildLeftBehind | app/handbrake_runner.py:190-288 | a child alive after run_encode had no watcher, and then nobody has killed it, or survived a kill by its ten seconds |
| EncodeProcess.LeavesChildIff | app/handbrake_runner.py:190-288 | exactly those two outcomes can leave a child alive, with a run for each |
| EncodeProcess.WatcherFinishes | app/handbrake_runner.py:156-172 | the watcher never stops while the child is alive and not killed |
| EncodeProcess.WatcherNeverStuck | app/handbrake_runner.py:164-172 | before that it always has a step to take |
| EncodeProcess.CancelIsBounded | app/handbrake_runner.py:164-172 | once the event is set the watcher's remaining steps are numbered |
| EncodeProcess.CancelReachesChild | app/handbrake_runner.py:9-11 | with the watcher started, five of its steps after a cancel the child has exited or is being killed, whatever main does |
| ProcessClock.EndIsBounded | app/handbrake_runner.py:262-288 | from the end of the read loop to the end of run_encode at most the timeout and eleven seconds pass, eleven after an aborted read; a timeout is raised no sooner than the timeout and at most ten seconds later |
| ProcessClock.BoundIsAttained | app/handbrake_runner.py:275-288 | a child that uses up the timeout and a watcher that does not end: run_encode returns after exactly the timeout and one second |
| ProcessClock.LimitIsNoDeadlock | app/handbrake_runner.py:262-288 | at the limit of a wait main has a step, or the killed child has |
| ProcessClock.ReadLoopIsUnbounded | app/handbrake_runner.py:216-219 | for any bound computed from the timeout there is a run still reading after it, a line at every tick, not killed and not expired |
| EncodeProcess.LateCancelIsNoCancel | app/handbrake_runner.py:12-14 | a run with a cancel the watcher noticed and a normal return |
| LiveEncodes.RunsInv | app/ops.py:119-124 | over every run of jobs and encodes each encode is a reachable process with its job's cancel event, and its job's function is being called until it ends |
| LiveEncodes.ShutdownStopsEncodes | app/job_manager.py:144-149 | past the cancel loop, after five steps of its watcher, every child whose watcher was started has exited or is being killed; at once if its run_encode is over |
| FileSystem.ApplyValid | app/ops.py:72-78 | calls of other processes keep the file system consistent and the descriptor open |
| FileSystem.HeldThroughout | app/ops.py:72-78 | while the descriptor is held its inode number means the same file, whatever others do |
| FileSystem.NumberCanBeReused | app/ops.py:75-78 | without the descriptor it need not |
| FileSystem.LinksAreFollowed | app/ops.py:44 | up to forty symbolic links are followed, to the path that is none and to its file |
| Publish.RunEncodeJob | app/ops.py:30-162 | the imperative job function computes the specification: file system, outcome, closes, preset removal and output path |
| Publish.TryPublish | app/ops.py:118-141 | its inner try |
| Publish.EncodeAndPublish | app/ops.py:118-154 | the inner try with its handler |
| Publish.PlanIs | app/ops.py:38-66 | which exception the preparations raise, in the order they are tried, and otherwise the plan for the first leaf of that name with its encoder |
| Publish.OutcomeIs | app/ops.py:38-162 | for each exception, exactly when the job function raises it |
| Publish.EncodeErrorIsReraised | app/ops.py:142-154 | what run_encode raises is what the job function raises, unless a close fails |
| Publish.ReportIs | app/ops.py:79-98 | a run that does not get its claim does nothing; the output path is set exactly with the claim |
| Publish.RunIsTheseCalls | app/ops.py:79-154 | between the calls of others a successful run makes its claim, the close and the rename, and one whose encode fails its claim, the close and the removal, and no more |
| Publish.FailureUndoesAll | app/ops.py:142-173 | with nobody else about, a failed run that gets to its removal leaves names, contents and descriptors as it found them |
| Publish.SuccessAddsOutput | app/ops.py:118-141 | and a successful one adds the output file with the encoder's contents, replacing what had its name, and changes nothing else |
| Publish.Host.OpenExclusive | app/ops.py:79-92 | the exclusive claim fails exactly when the call fails or something has the name |
| Publish.Host.RemovePartial | app/ops.py:165-173 | whatever has the name is unlinked, not what it links to |
| Publish.CheckIsIdentity | app/ops.py:125-135 | comparing inode numbers passes exactly when the staging path still leads to the claimed file |
| Publish.SucceedsIff | app/ops.py:118-141 | exactly when a run succeeds, and that only then anything is renamed |
| Publish.PublishedIsClaimed | app/ops.py:139-141 | on success, whatever others did, the output path gets the entry the staging path had at the rename; it names the claimed file with its contents exactly when that entry did |
| Publish.PublishedUndisturbed | app/ops.py:129-141 | with nobody between check and rename, exactly when the entry the check saw was not a symbolic link |
| Publish.ForeignFileIsPublished | app/ops.py:139-141 | unlinked and created again after the close, another file with the same number is published |
| Publish.LinkIsPublishedAsIs | app/ops.py:129-141 | a link to the claimed file passes the check and is what gets published |
| Publish.RenameWritesNothing | app/ops.py:62-65 | the rename changes no file's contents: a link at the output path is replaced and its target kept |
| Publish.ClosedOnceIff | app/ops.py:104-162 | whatever fails and whatever a repeated close meets: how often os.close is called, exactly when the preset file's removal is attempted, and exactly when the descriptor leaks |
| Publish.RepeatedCloseHitsAnother | app/ops.py:150-158 | a repeated close that succeeds has closed a descriptor that is not the job's |
| Publish.FailureLeavesNoStaging | app/ops.py:142-154 | a failed run that gets as far as the removal, with the removal succeeding, leaves no staging entry whatever was there |
| Publish.FailureKeepsOutput | app/ops.py:142-154 | every failure leaves the output path as the others left it |
| Publish.TouchesOnlyItsOwn | app/ops.py:42-162 | on every way out, success included, a run touches no entry but its own output and staging name |
| Publish.OtherJobsAreSpared | app/paths.py:81-121 | so it leaves the output and staging entry of every job with another id alone, whatever the two sources |
| Publish.StagingLeftIff | app/ops.py:104-173 | with nobody else at the staging name, a failed run leaves the staging file exactly when the preset's temporary file could not be made or written, the handler's close failed, or the removal did |
| Publish.SourceIsPreserved | app/ops.py:142-145 | on every way out, whichever calls fail, the source path names the same file with the same contents |
| Service.AccountedKept | app/job_manager.py:261-292 | every step keeps each ended job explained by one call of its function |
| Service.CompletedMeans | app/job_manager.py:289-292 | completed: the child exited 0 in time, the staging file was ours at the check, the output path derived for this job holds the entry the staging path had at the rename, and the claimed file exactly when that did; progress is 100 |
| Service.CancelledMeans | app/job_manager.py:261-271 | cancelled: the job's event is set, and it was never claimed or its child was told to stop and exited non-zero, the output path is as the others left it, and the staging entry is gone as far as it was removed |
| Service.FailedMeans | app/job_manager.py:272-288 | failed: the call raised something else, output and staging as for a cancelled call, the error is there; a child still alive had no watcher or survived a kill |
| Service.StatusIff | app/job_manager.py:266-292 | a called job's status is decided by how its function ended: completed, cancelled and failed, each exactly when |
| Service.OnlyAbortsCostAWorker | app/job_manager.py:277-288 | a job can cost its worker only by an exception that aborted the read loop |
| Service.CancelledEncodeCancelsJob | app/job_manager.py:269-271 | a job whose run_encode raised HandBrakeCancelled, and whose close went through, is cancelled |
| Service.OutputsNeverCollide | app/paths.py:81-92 | two completed jobs with distinct ids published to different paths, whatever their sources |
| ProbeCache.Globals.Lookup | app/encoders.py:70-73 | a hit is the cached answer, and the generation is captured under the lock |
| ProbeCache.Globals.Store | app/encoders.py:87-90 | stored only if no reset came since |
| ProbeCache.Globals.Reset | app/encoders.py:31-37 | both caches emptied, a new generation |
| ProbeCache.CacheIsCurrent | app/encoders.py:69-90 | in any run, a cached answer came from a call that looked the cache up after the run's last reset, and is what a direct probe would say |
| ProbeCache.HitNeedsNoProbe | app/encoders.py:70-72 | a lookup is answered from the cache exactly when the key is there |
| ProbeCache.StoredIffCurrent | app/encoders.py:87-90 | an answer is cached exactly when no reset came since its call's lookup |
| ProbeCache.CallIsDirectProbe | app/encoders.py:147-175 | a call that no reset overtakes returns what a direct probe would, whatever others reset and store |
| HelpText.ParseEncoderList | app/encoders.py:48-60 | the loop computes the block specification |
| HelpText.ParsePresetList | app/encoders.py:116-133 | the loop computes the block specification |
| HelpText.EncoderListRoundTrip | app/encoders.py:40-60 | a printed block of tokens and prose is read back as its tokens, whatever surrounds it |
| HelpText.PresetListRoundTrip | app/encoders.py:98-133 | the same, and nothing for a header that names another encoder |
| HelpText.ValueIff | app/encoders.py:18 | a value line is four or more spaces, one token and spaces, and nothing else is one |
| HelpText.ProseIsNoValue | app/encoders.py:104-109 | prose of several words is no value |
| HelpText.FlagIff | app/encoders.py:19 | a flag line is spaces, a dash and anything |
| HelpText.MarginIff | app/encoders.py:125-128 | a preset block ends at a line that holds something and does not start with a blank |
| HelpText.EncoderFlagIff | app/encoders.py:17 | what the line that starts the encoder list is |
| HelpText.ValueLine | app/encoders.py:17-19 | an indented token is read back; it is taken for a flag exactly when it starts with a dash, for the end of a preset block exactly when the padding starts with another space than a blank |
| HelpText.HeaderRoundTrip | app/encoders.py:21-23 | the printed header names its encoder |
| HelpText.HeaderIff | app/encoders.py:21-23 | and no other line names one |
| Paths.DirNameIs | app/paths.py:92 | the directory of a path, without a word about how it is found |
| Paths.DerivedPathsAre | app/paths.py:81-121 | the two derived paths, written out |
| Paths.DerivedIff | app/paths.py:89-118 | a path is derived exactly for non-empty tokens of letters, digits, dashes and underscores |
| Paths.DerivedInSourceDirectory | app/paths.py:81-121 | both derived files are siblings of the source |
| Paths.OutputInjective | app/paths.py:81-92 | whatever the two sources, equal output paths come from one directory, one job id and one extension |
| Paths.StagingInjective | app/paths.py:95-121 | and equal staging paths from one hexadecimal token too |
| Paths.FamiliesDisjoint | app/paths.py:95-121 | no staging path, of any source, is an output path of a job id without a dash |
| Paths.StagingIsNotOutput | app/paths.py:95-121 | one job's two paths always differ |
| Limits.LimitedReceive.Receive | app/limits.py:49-59 | each message is forwarded or replaced by a disconnect as the running total says |
| Limits.BodyNeverExceedsLimit | app/limits.py:26-30 | the application never gets more body than the limit, and the stream unaltered exactly when it fits |
| Limits.LimitHoldsWhateverIsDeclared | app/limits.py:37-61 | a lying Content-Length lets no more through, a truthful or absent one changes nothing |
| Limits.CutIsExact | app/limits.py:52-58 | a message with body is a disconnect exactly when the body up to it passes the limit, else itself, and then so is every later one with body |
| Limits.OthersPass | app/limits.py:52-59 | a message without body arrives as it was sent |
| Limits.RejectedIff | app/limits.py:38-45 | the application is not called exactly for an HTTP request that declares more than a positive limit; without a limit, and for anything but HTTP, nothing changes |
| Presets.Walker.Walk | app/presets.py:25-36 | the recursive walk appends the leaves below, in order |
| Presets.IterPresets | app/presets.py:23-39 | all leaves of the document, depth first |
| Presets.LeavesAreTheLeaves | app/presets.py:23-39 | the list is every leaf of the tree, wherever it is, in the order of its indices, and nothing else |
| Presets.EncoderIff | app/presets.py:54-61 | the encoder is the leaf's own; none or an empty one is refused |
| Presets.ExtensionIff | app/presets.py:82-96 | the extension is that of the muxer, for the three known; any other is refused |
| Presets.FindPresetIsFirst | app/presets.py:42-51 | the first leaf of that name, never a folder; fails exactly when no leaf has it |

## Left out

- HTTP routes, request models, error flattening, logging, GPU detection, `handbrake_info`, deployment files.
- `_remaining_seconds`, the ETA fields and the callbacks' arguments: objects are handled in order, what is read out of one is a single branch.
- `validate_source_path` beyond its three outcomes; `realpath` of directory parts and `commonpath` are not modelled, and link targets are absolute.
- `json.loads` itself: any function from slices to a dict, another value, a decode error or another exception.
- JsonText.StreamRoundTrip: scalars are any token without quotes and braces, a superset of the numbers and literals of RFC 8259.
- Concurrent `start()` with `shutdown()`: a shutdown begins only when start's loop is over, and one shutdown runs at a time.
- The job function in the bare protocol stores progress only; its other stores (`message`, `encoder_used`, `output_path`) are in `Publish`.
- Join timeouts are modelled as "may return at any time"; the durations of `run_encode`'s own waits are in `ProcessClock`.
- JobManager.Manager: one method per atomic section; the `while True` of `_worker` is the program counter in `workers`, since between its sections any other thread may run.
- Service: what a child that outlives its call still writes is not followed.
- EncodeProcess: grandchildren that hold stdout open only delay the end of stdout, which may come at any time.
- HelpText: lines are given, not split, and `\b` is the boundary of ASCII word characters.
- Publish: rename is atomic, a failing `os.close` still releases the descriptor, and a directory at the output path is a failing rename.
- Signals and KeyboardInterrupt in the main thread between two statements.
- Publish.SourceIsPreserved: other processes may do anything that is not itself a change of the source or of the staging name.
- `_content_length`: the declared length is an input.

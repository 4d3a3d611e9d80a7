# RehearseKit verification

A Dafny model of the Go rebuild of RehearseKit and of its streaming player, with proofs of what
the moving parts promise each other. Running `dafny verify dfyconfig.toml` checks everything.

The system, in its own terms:

- **Jobs and GPU leases.** Users create jobs; worker processes claim them, convert and analyse on
  the CPU, hand them to GPU runners that lease them, and finalise and package the result. Runners,
  workers, sweepers, cancels and retention all change the same three tables.
  `Stages`, `Tables`, `Queue` and `Leases` hold the tables and every store method as an in-place
  method proved against a function of the old tables. `LeaseInvariant` says what each lease call
  keeps; `Pipeline` puts tables, advisory locks and worker goroutines of any number of processes
  into one state machine whose steps are whole methods, and proves what every interleaving keeps;
  `LeaseRaces` repeats the lease store one SQL statement per step, where less is true;
  `GpuWait` is the watchdog for jobs no runner takes, and `RunnerProgress` the runner's progress
  bands with heartbeats sent beside the work.
- **Streaming player.** `Wrap32` is the 32-bit arithmetic of the control words, `PlayPlan` maps the
  stream onto the song, `Rings` is the shared memory with its writer and with the audio thread's
  `process`, `Playback` interleaves the audio thread with the stem streamers load by load and store
  by store, `Transport` is the engine with its generation-numbered flush handshake, and `PcmDecode`
  turns file bytes into samples.
- **GPU autoscaler.** `ScalerPolicy` is the decision, `Scaling` the scaler with its state file over
  a cloud, `ScalingRuns` its runs, where any tick may stop anywhere and any call or save may fail,
  and `ScalingStories` two runs that end badly.
- **Event stream.** `EventStream` joins the broker's coalescing channels with the replay loop.
- **Drum editor.** `DrumStore` has the ref-counted locks and the read-check-replace of a document,
  `DrumRuns` every interleaving of them with crashes and job removal, `DrumDoc` the seed, its
  validation and its export. `Mixdown` is the chunked sum of stems, `WavHeader` the header written
  with it and the reader of such files.
- **Entitlement.** `Entitlement` follows a checkpoint class from the registry through job creation,
  claiming and the runner's own check; `RunnerHeaders` adds the capability headers and
  `EntitledRuns` carries it over whole runs of the service.
- **Previews.** `RateLimit` is the token bucket, `LruCache` the preview cache.

Some properties one would expect are false of the code. The model keeps the code as it is, proves the
exact condition under which the property holds and, where the condition does not show one by itself,
gives an input outside it:

- A job handed on can be pulled back to separating by any call that read the job earlier and writes it
  later. `LeaseRaces.PulledBackExactlyBy` names the statements that do it: a late heartbeat, a late
  failure policy, the move of a late claim, and nothing else in the store; three runs reach them
  (`LeaseRaces.HandedOffJobCanReturn`, `LatePolicyPullsBack`, `LateClaimPullsBack`). With whole methods
  as steps it cannot happen (`Pipeline.CompletedIsFinal`).
- A failure policy lost to a database error strands a job exactly on its last attempt
  (`LeaseInvariant.LostPolicyStrandsTheLastAttempt`).
- The comment of `SweepGPUWait` says that even a failed lease restarts the clock; one that comes and
  goes between two sweeps does not (`GpuWait.ShortLeasesAreNotSeen`, exact condition
  `GpuWait.FailsExactlyAfterTheWait`), and the sweep fails a job that was leased or handed on since it
  looked (`GpuWait.LateFailuresSpareOnlyEndedJobs`). The ids it returns include jobs that had already
  ended.
- The transcription caption is hidden exactly by a separation heartbeat at least as high
  (`RunnerProgress.TranscriptionHiddenExactlyWhen`), which takes a tool that reports more than it did
  (`RunnerProgress.OvershootHidesTheTranscription`).
- `isPowerOfTwo` is exact below 2^32 only; a stream of 2^31 frames or more is announced with a wrong
  end; `PoolConns` wraps near 2^31 slots.
- `setLoop` before a seek's flush is answered starts from where the old plan stands, whatever happened
  in between (`Transport.SetLoopForgetsTheSeek`).
- Listeners told of 'priming' keep the handshake exactly when none of their calls takes effect
  (`Transport.ListenersKeepTheHandshakeExactlyWhen`, `Transport.ListenersMustNotSeek`).
- A tick rents a second instance exactly when it failed to destroy an orphan that is still alive
  (`ScalingRuns.SecondInstanceExactlyWhen`), which a listing that still names a dead instance makes
  possible; one run ends with two (`ScalingStories.LaggingListingEndsWithTwo`).
- The idle timer is true in every state of a run exactly when no crash comes while the file holds a
  timer and the clearing by a busy decision is still unsaved (`ScalingRuns.TimersAlwaysTrueExactlyWhen`);
  in one run it does, and a busy instance ends (`ScalingStories.ForgottenClearEndsABusyInstance`).
- The position shown is the frame heard for the first 2^31 frames of a stream. Beyond, which only a loop
  reaches, it is so exactly under the condition of `PlayPlan.PositionIsTrueExactlyWhen`, and for the next
  2^31 frames a stop or a new loop starts from the plan's first frame (`PlayPlan.LongLoopsShowTheStart`).
- The comment of mixdown.go that sums of five 24-bit stems are stored exactly holds for up to two stems
  (`WavHeader.MixIsExactExactlyUpToTwo`); the header's byte rate and block size wrap for large formats
  (`WavHeader.DerivedFields`).
- A public image's inventory is all public exactly when the manifest fools no recipe
  (`Entitlement.InventoryIsPublicExactlyWhen`); a manifest that `validate` accepts and that does has a
  repeated checkpoint id (`Entitlement.RepeatedIdsFoolTheScan`).
- The claim query and the server read a job's recipe alike exactly when it has none or one the registry
  knows (`Entitlement.RecipesAgree`).
- The worker uses any detected tempo, the export only a positive one; for a tempo that is not, the export
  differs unless all notes are at 0 (`DrumDoc.SeedRoundTrip`). The parser of tempo.json lets no such tempo
  through, so in the service they always agree (`DrumDoc.SeedRoundTripAlways`).

## Model

| member | source | states |
|---|---|---|
| `Stages.StageProgressInBand` | internal/jobs/stages.go:62-70 | whatever fraction is reported, the progress stays inside the band of its status |
| `Stages.StageProgressMonotone` | internal/jobs/stages.go:62-70 | a larger fraction never shows less, and 0 and 1 reach the ends of the band exactly |
| `Stages.BandsAreOrdered` | internal/jobs/stages.go:23-58 | the bands of working statuses follow each other in pipeline order without overlap, adjoining ones without a gap |
| `Tables.Database.Emit` | internal/jobs/store.go:284-293 | appends one event with the next serial id to the log of the job and changes nothing else |
| `Tables.PickFirst` | internal/gpu/store.go:146-177 | the row an ORDER BY with LIMIT 1 yields: the one candidate less than all others |
| `Queue.Create` | internal/jobs/store.go:101-135 | a new pending row at progress 0 together with the first event of its log |
| `Queue.Transition` | internal/jobs/queue.go:46-87 | missing and terminal rows are refused and left alone; otherwise status, clamped progress, error, start and end times and the event are written together |
| `Queue.Cancel` | internal/jobs/queue.go:91-93 | cancels exactly the jobs that have not ended |
| `Queue.Claim` | internal/jobs/queue.go:17-39 | takes the oldest pending job into converting, and changes nothing when there is none |
| `Queue.FailStale` | internal/jobs/store_worker.go:75-104 | fails exactly the CPU-stage jobs without a recent event, each once |
| `Queue.DeleteExpired` | internal/jobs/store_worker.go:54-69 | deletes exactly the expired jobs, with their leases and events |
| `Queue.TransitionKeepsLog` | internal/jobs/queue.go:46-87 | every move keeps each row equal to the last entry of its log, with at most that entry terminal, end time and error set exactly for ended and failed jobs, and ids ascending |
| `Queue.CreateKeepsLog` | internal/jobs/store.go:101-135 | creating a job keeps rows and logs in step |
| `Queue.ClaimKeepsLog` | internal/jobs/queue.go:17-39 | claiming keeps rows and logs in step |
| `Queue.DeleteKeepsLog` | internal/jobs/store_worker.go:54-69 | deleting jobs keeps rows and logs in step |
| `Queue.TerminalIsAbsorbing` | internal/jobs/queue.go:62-71 | a finished job's row and log are never changed by any later move of any job |
| `Leases.Store.TryClaim` | internal/gpu/store.go:146-177 | leases the first job the runner may be offered, refuses when there is none, and leaves the tables alone when it loses the race |
| `Leases.Store.Claim` | internal/gpu/store.go:112-139 | retries a lost race up to five times, then moves the leased job to the start of its band; an error before the lease leaves the tables unchanged, one in the move leaves the lease |
| `Leases.Store.Heartbeat` | internal/gpu/store.go:201-235 | extends the lease, moves the job's progress only forward, and closes the lease of a job that left separating; each refusal is the one the source gives |
| `Leases.Store.Owned` | internal/gpu/store.go:180-192 | tells a missing lease, another runner's lease and a closed lease apart |
| `Leases.Store.Close` | internal/gpu/store.go:353-362 | closes an active lease, and refuses any other without a change |
| `Leases.Store.CheckStems` | internal/gpu/store.go:264-282 | accepts exactly when the last report of each name covers the wanted stems, no others, and each verifies |
| `Leases.Store.CheckArtifacts` | internal/gpu/store.go:308-350 | accepts exactly no artefacts on a plain job, and on a transcribe job distinct valid verified ones with the analysis among them |
| `Leases.Store.Complete` | internal/gpu/store.go:251-306 | which error comes first; success closes the lease as completed and moves the job to finalizing, a vanished job closes it as failed, a fault in the move leaves it active and extended |
| `Leases.Store.Fail` | internal/gpu/store.go:368-377 | closes the lease and applies the policy; says whether the job ran out of attempts |
| `Leases.Store.ApplyPolicy` | internal/gpu/store.go:381-403 | fails the job when its attempts are used up and otherwise puts it back at the start of separating |
| `Leases.Store.ExpireStale` | internal/gpu/store.go:407-434 | expires exactly the active leases past their time, then applies the policy to the job of each |
| `LeaseInvariant.ClaimKeeps` | internal/gpu/store.go:112-177 | a claim keeps attempts within the limit and leaves the job with exactly one active lease |
| `LeaseInvariant.UnmovedClaimKeeps` | internal/gpu/store.go:131-138 | a claim whose move fails keeps it too |
| `LeaseInvariant.CompletionIsAnOutcome` | internal/gpu/store.go:251-306 | whatever Complete answers, in its order of checks, is an outcome the steps of the service allow |
| `LeaseInvariant.HeartbeatKeeps` | internal/gpu/store.go:201-235 | a heartbeat, refused or not, keeps the accounting of every job |
| `LeaseInvariant.FailKeeps` | internal/gpu/store.go:368-403 | failing a lease keeps it: the job has attempts left or has ended |
| `LeaseInvariant.PolicyKeeps` | internal/gpu/store.go:381-403 | from the state between closing and policy, the policy restores the accounting |
| `LeaseInvariant.CompleteKeeps` | internal/gpu/store.go:251-306 | every outcome of completing keeps it, and a completed lease leaves the job past separating |
| `LeaseInvariant.ExpireStaleKeeps` | internal/gpu/store.go:407-434 | expiring any number of leases at once keeps it, although in between several jobs await their policy |
| `LeaseInvariant.DeleteKeeps` | internal/jobs/store_worker.go:54-69 | removing jobs with their leases keeps it |
| `LeaseInvariant.OneActiveLease` | internal/gpu/store.go:106-112 | two active leases of one job are the same lease |
| `LeaseInvariant.LostPolicyStrandsTheLastAttempt` | internal/gpu/store.go:381-403 | closing a lease without the policy breaks the accounting exactly when the job is separating on its last attempt |
| `LeaseRaces.NeverTwoActive` | internal/gpu/store.go:286-299 | over any interleaving of single statements, reopened leases included, a job never has two active leases |
| `LeaseRaces.PolicyAtMostOnce` | internal/gpu/store.go:353-377 | however failing, completing and expiring race, the policy is started at most once per lease and only for a dead one |
| `LeaseRaces.DeadForever` | internal/gpu/store.go:407-434 | failed and expired leases never change again and ids are never issued twice |
| `LeaseRaces.FailuresNeverDecrease` | internal/gpu/store.go:96-100 | a job's failure count never falls while its lease rows exist |
| `LeaseRaces.PulledBackExactlyBy` | internal/gpu/store.go:381-400 | among all statements exactly these pull a job past separating back: a heartbeat's report that beats the progress it read, a policy's move with attempts left, the move of a claim, or an outside write of separating |
| `LeaseRaces.LatePolicyPullsBack` | internal/gpu/store.go:381-400 | a run in which a policy counts, another runner completes the job, and the policy's move pulls it back |
| `LeaseRaces.LateClaimPullsBack` | internal/gpu/store.go:131-138 | a run in which a claim's lease expires before its move, another runner completes the job, and the move pulls it back |
| `LeaseRaces.LateReportDragsBack` | internal/gpu/store.go:213-233 | a suspended heartbeat changes the status exactly when the job has meanwhile left separating without ending and the report beats the progress it read; then it pulls the job back |
| `LeaseRaces.HandedOffJobCanReturn` | internal/gpu/store.go:213-233 | a run of single statements after which a job with a completed lease is separating again |
| `Pipeline.StepKeeps` | internal/worker/worker.go:118-243 | every step of every component keeps the invariant and moves each job forward, apart from re-queuing out of converting or analyzing |
| `Pipeline.EveryRunKeeps` | internal/worker/worker.go:106-344 | every state any interleaving reaches satisfies the invariant of tables, locks and goroutines |
| `Pipeline.LeaseAccounting` | internal/gpu/store.go:146-177 | in every reachable state active and dead leases of a job stay within the limit, an active one means separating or ended, and a completed one excludes active ones and separating |
| `Pipeline.NeverStranded` | internal/gpu/store.go:146-177 | a separating job without a lease is offered to a runner exactly when the runner's capabilities fit it |
| `Pipeline.RowIsLastEvent` | internal/jobs/queue.go:46-87 | in every reachable state the row shows the last event, only that one may be terminal, end time and error are set exactly as the status says, and progress is in its band |
| `Pipeline.ExclusiveDriving` | internal/worker/worker.go:162-243 | two goroutines with a say in one job are the same; a driver holds the lock and knows the job's stage unless the job has ended |
| `Pipeline.LockedElsewhereGoesBack` | internal/worker/worker.go:171-179 | a claimed job whose lock is taken returns to pending without being driven and without touching the lock |
| `Pipeline.LockConnsBound` | internal/jobs/store_worker.go:116-142 | the slots channel lets a process hold at most one lock connection per slot, and the resume loop one more |
| `Pipeline.PoolKeepsHeadroom` | internal/worker/worker.go:61-66 | a pool of PoolConns always keeps four connections free of locks, exactly as long as the size fits 32 bits |
| `Pipeline.ClosedStayClosed` | internal/gpu/store.go:353-362 | no step changes a closed lease |
| `Pipeline.CompletedIsFinal` | internal/gpu/store.go:286-306 | over any further run a job with a completed lease keeps it, never has an active one again and never returns to separating |
| `Pipeline.DeletedStaysDeleted` | internal/jobs/store_worker.go:54-69 | no step brings a deleted job back |
| `GpuWait.Watchdog.Note` | internal/worker/worker.go:257-281 | the map holds exactly the jobs seen waiting now, each with its first sighting, and the overdue ones are picked in list order |
| `GpuWait.Watchdog.FailAll` | internal/worker/worker.go:282-294 | fails the overdue jobs up to the first database error; those done leave the map, the others stay overdue |
| `GpuWait.EveryRunKeeps` | internal/worker/worker.go:249-295 | over any run of sweeps, errors and foreign changes a clock is the time of the first sweep of the unbroken stretch that saw the job waiting |
| `GpuWait.FailsExactlyAfterTheWait` | internal/worker/worker.go:245-274 | a sweep picks a job exactly when every sweep back to one more than the timeout ago saw it without a lease |
| `GpuWait.SeenLeasesRestartTheClock` | internal/worker/worker.go:263-266 | a clock never reaches back behind a sweep that did not see the job waiting |
| `GpuWait.ShortLeasesAreNotSeen` | internal/worker/worker.go:245-248 | a lease claimed and failed between two sweeps leaves the query's rows and so the clock as they were |
| `GpuWait.LateFailuresSpareOnlyEndedJobs` | internal/worker/worker.go:283-288 | the failing spares exactly the jobs that have ended, leased and handed-on ones not |
| `GpuWait.LeasedJobIsFailedUnderItsRunner` | internal/gpu/store.go:213-220 | a runner that leased the job after the query is told at its next heartbeat that the job is gone, and its lease is closed |
| `GpuWait.FailingIsAServiceStep` | internal/worker/worker.go:283-288 | it is a step of the whole service, so its invariants hold across it |
| `RunnerProgress.HeartbeatShows` | internal/gpu/store.go:201-235 | on an active lease of a separating job a heartbeat changes row and log exactly as the user-visible step says |
| `RunnerProgress.RowIsTheBestNews` | internal/gpu/store.go:194-200 | the row shows the highest progress that arrived, whatever was delayed, repeated or lost |
| `RunnerProgress.ArrivalShowsExactlyWhen` | internal/gpu/store.go:221-233 | an arrival changes the row exactly when it is above the highest that arrived before |
| `RunnerProgress.CaptionSaysTranscribingExactlyWhen` | internal/gpu/store.go:198-200 | after any run, with any reports, the caption says transcribing exactly when the first of the highest arrivals is from the transcription |
| `RunnerProgress.TranscriptionHiddenExactlyWhen` | internal/agent/agent.go:483-485 | the first transcription heartbeat to arrive stays hidden exactly when a separation heartbeat at least as high arrived before |
| `RunnerProgress.CaptionsFollowTheBands` | internal/agent/agent.go:483-489 | whatever the tools report, the row is past the band of the stems under the wrong caption exactly when a separation heartbeat beyond the band speaks; other jobs never say transcribing |
| `RunnerProgress.FractionsKeepTheBands` | internal/agent/agent.go:483-489 | with tools that report fractions that never happens, though stage and progress are two loads beside the work |
| `RunnerProgress.TranscriptionIsSeen` | internal/agent/agent.go:551-564 | a transcription heartbeat above every separation heartbeat that arrived leaves the right caption, whatever the tools report |
| `RunnerProgress.FractionsShowTheTranscription` | internal/agent/agent.go:551-564 | with fractions every heartbeat from the transcription does |
| `RunnerProgress.OvershootHidesTheTranscription` | internal/agent/agent.go:494-500 | one separation report beyond 1 hides the whole transcription |
| `RunnerProgress.EveryRunStaysInBand` | internal/agent/agent.go:481-547 | every step's progress stays in its band |
| `RunnerProgress.ProgressNeverFalls` | internal/agent/agent.go:481-590 | with reports that go on the runner's progress never falls from one step to the next |
| `Wrap32.IndexSurvivesWrap` | frontend/lib/lab-stream/ring-layout.ts:14-16 | masking a counter kept in 32 bits gives the true counter modulo the ring size |
| `Wrap32.DistanceSurvivesWrap` | frontend/lib/lab-stream/ring-layout.ts:14-16 | counters less than 2^31 apart keep their distance through the wrap |
| `Wrap32.AdvanceSurvivesWrap` | web/public/stream-processor.js:160-160 | advancing a wrapped counter is wrapping the advanced counter |
| `Wrap32.MaskIsMod` | frontend/lib/lab-stream/ring-layout.ts:14-16 | bitwise and with 2^n - 1 is the remainder, for negative words too |
| `Wrap32.PowerOfTwoTest` | frontend/lib/lab-stream/ring-layout.ts:54-56 | the test accepts exactly the numbers whose low 32 bits are zero or a power of two |
| `Wrap32.PowerOfTwoTestIsExactBelow` | frontend/lib/lab-stream/ring-layout.ts:54-56 | below 2^32 it accepts exactly the powers of two |
| `Wrap32.PowerOfTwoTestFailsAbove` | frontend/lib/lab-stream/ring-layout.ts:54-56 | it accepts 2^32 + 1, which is none |
| `Wrap32.EofWord` | frontend/lib/lab-stream/shared-ring.ts:81-83 | the end word is the stream length exactly below 2^31, else it reads as endless or shorter |
| `PlayPlan.MakePlanIsValid` | frontend/lib/lab-stream/chunk-scheduler.ts:56-71 | every plan is well formed, and it loops exactly when the range is usable and ends ahead of the start |
| `PlayPlan.ValidatedLoop` | frontend/lib/lab-stream/chunk-scheduler.ts:23-34 | a usable range is inside the song and long enough; a range already so is kept as it is |
| `PlayPlan.ChunkIsFaithful` | frontend/lib/lab-stream/chunk-scheduler.ts:77-100 | a chunk is non-empty, within the song, crosses no boundary, and is songFrameAt frame by frame; none comes exactly at the end of a finite plan |
| `PlayPlan.LoopRepeats` | frontend/lib/lab-stream/chunk-scheduler.ts:77-83 | past the prefix the song repeats with the loop's length, from its start, inside it |
| `PlayPlan.PositionIsTrueExactlyWhen` | frontend/lib/lab-stream/chunk-scheduler.ts:77-83 | looking the song frame up with the 32-bit read word gives the frame heard exactly below 2^31, or when the frames lost do not matter |
| `PlayPlan.LongLoopsShowTheStart` | frontend/lib/lab-stream/chunk-scheduler.ts:77-83 | while the word is negative a loop shows the plan's first frame |
| `PlayPlan.TilesLieEndToEnd` | frontend/lib/lab-stream/chunk-scheduler.ts:85-100 | repeated chunks of any sizes are non-empty and contiguous from where the asking started |
| `PlayPlan.TilesCoverTheStream` | frontend/lib/lab-stream/chunk-scheduler.ts:85-100 | and they name exactly the song frames of their stretch of the stream |
| `PlayPlan.FinitePlanEnds` | frontend/lib/lab-stream/chunk-scheduler.ts:85-100 | a finite plan is used up after the expected number of steps, whatever the chunk size |
| `PlayPlan.ChunksHaveByteRanges` | frontend/lib/lab-stream/chunk-scheduler.ts:103-115 | no chunk is refused by byteRangeFor; its range is inclusive, inside the data, and starts at the frame songFrameAt names |
| `Rings.CreateRingLayout` | frontend/lib/lab-stream/ring-layout.ts:58-78 | which arguments are refused, and that the rings follow each other behind the control block up to the total |
| `Rings.RingsAreApart` | frontend/lib/lab-stream/ring-layout.ts:58-78 | no two rings share a byte and none leaves the buffer or enters the control block |
| `Rings.SharedRings.Write` | frontend/lib/lab-stream/shared-ring.ts:54-72 | the first frames of the scratch arrays go whole into every channel from the wrapped position on and are published, or are refused with nothing changed |
| `Rings.SharedRings.CopyIn` | frontend/lib/lab-stream/shared-ring.ts:61-69 | the two pieces of a wrapped copy put frame k at the slot of position k and leave the other slots |
| `Rings.SharedRings.ResetWriters` | frontend/lib/lab-stream/shared-ring.ts:74-79 | zeroes the write positions and the end flag, makes the length unknown, and touches no other word |
| `Rings.SharedRings.CopyOut` | web/public/stream-processor.js:151-153 | frame k of the quantum is the ring's slot of position r + k, and the rest of the output is kept |
| `Rings.SharedRings.FillStem` | web/public/stream-processor.js:146-156 | every output channel of a stem is filled from its ring, extra channels from the last one |
| `Rings.SharedRings.FillOutputs` | web/public/stream-processor.js:145-156 | so is every output with a stem, and the others are left alone |
| `Rings.SharedRings.MinLead` | web/public/stream-processor.js:130-134 | the least lead of any writer |
| `Rings.SharedRings.Process` | web/public/stream-processor.js:108-163 | silent, ended, underrun or play, exactly as the words say; which words change and by how much; all outputs filled or none |
| `Playback.StepKeeps` | web/public/stream-processor.js:108-163 | every load, copied frame and store of the audio thread and of the streamers keeps the invariant |
| `Playback.EveryRunKeeps` | web/public/stream-processor.js:108-163 | so every reachable state satisfies it, for any stems, plan, ring size and interleaving |
| `Playback.SampleExact` | web/public/stream-processor.js:145-160 | frame p that stem i has put out is the decoded song at songFrameAt(p) |
| `Playback.Lockstep` | web/public/stream-processor.js:9-13 | between quanta all stems have put out equally many frames, the number READ_POS counts |
| `Playback.PositionShown` | frontend/lib/lab-stream/engine.ts:335-340 | in every reachable state the position shown is the next frame heard exactly under that condition, in a finite stream always |
| `Playback.EndsExactly` | web/public/stream-processor.js:118-128 | a stream reported ended has put out exactly its length; a looping one never ends |
| `Playback.EndIsNoticed` | web/public/stream-processor.js:118-128 | the first quantum that starts at the length reports the end |
| `Playback.NeverOverwrites` | frontend/lib/lab-stream/chunk-scheduler.ts:117-123 | no fetched block is ever refused for room and no unread frame overwritten |
| `Playback.UninterruptedQuantum` | web/public/stream-processor.js:108-163 | a quantum nobody interrupts takes the decision of one call of process |
| `Playback.LongStreamsEndWrong` | frontend/lib/lab-stream/shared-ring.ts:81-83 | from 2^31 frames on a finite stream has no end or one below its length |
| `Playback.SlotIsTrue` | frontend/lib/lab-stream/ring-layout.ts:14-16 | the slot computed from a wrapped word is the true counter's |
| `Playback.BufferedIsTrue` | frontend/lib/lab-stream/shared-ring.ts:38-41 | frames buffered, computed from the words, are the true distance of the counters |
| `Playback.ArriveKeeps` | frontend/lib/lab-stream/stem-stream.ts:97-139 | the answer to a range request always finds the room its request saw |
| `Playback.FillKeepsRing` | frontend/lib/lab-stream/shared-ring.ts:58-72 | each frame written lands where no unread frame lies |
| `Transport.StreamEngine.HaltStream` | frontend/lib/lab-stream/engine.ts:342-353 | a new generation, no pending flush, the shared state stopped, the anchor kept |
| `Transport.StreamEngine.StartFrom` | frontend/lib/lab-stream/engine.ts:375-390 | priming with a flush due for the new generation, asked to start at the frame |
| `Transport.StreamEngine.Current` | frontend/lib/lab-stream/engine.ts:335-340 | the plan's song frame at the read position while active, else the anchor |
| `Transport.StreamEngine.Play` | frontend/lib/lab-stream/engine.ts:219-224 | nothing while active; otherwise starts at the anchor, from the top after the end |
| `Transport.StreamEngine.Stop` | frontend/lib/lab-stream/engine.ts:226-233 | halts and anchors where the music stood |
| `Transport.StreamEngine.Seek` | frontend/lib/lab-stream/engine.ts:235-245 | restarts an active stream at the clamped frame, else moves the anchor |
| `Transport.StreamEngine.SetLoop` | frontend/lib/lab-stream/engine.ts:248-263 | an unusable range changes nothing; a usable one restarts an active stream |
| `Transport.StreamEngine.Fail` | frontend/lib/lab-stream/engine.ts:428-432 | halts into the error state |
| `Transport.StreamEngine.OnFlushed` | frontend/lib/lab-stream/engine.ts:392-404 | only the answer of the current pending generation starts anything |
| `Transport.StreamEngine.BeginStream` | frontend/lib/lab-stream/engine.ts:396-402 | writers reset, a new plan from the anchor and the loop, its end word, the state priming |
| `Transport.StreamEngine.Tick` | frontend/lib/lab-stream/engine.ts:406-426 | priming turns into playing when filled, playing into ended when the worklet says so |
| `Transport.StreamEngine.Destroy` | frontend/lib/lab-stream/engine.ts:307-317 | halts and drops the node, so that no flush is posted any more |
| `Transport.StreamEngine.OnTimeout` | frontend/lib/lab-stream/engine.ts:386-389 | a timer posts its flush only while its generation is the pending one |
| `Transport.EveryRunKeeps` | frontend/lib/lab-stream/engine.ts:343-404 | any sequence of calls, timers, messages and quanta keeps the handshake's invariant |
| `Transport.NoFlushUnderAStream` | web/public/stream-processor.js:42-51 | while the shared state is priming or playing no flush and no answer is on its way |
| `Transport.StaleAnswersStartNothing` | frontend/lib/lab-stream/engine.ts:392-397 | an answer starts one stream if it is of the current generation, newer than all before, and else is dropped without effect |
| `Transport.StreamsStartWhereAsked` | frontend/lib/lab-stream/engine.ts:375-400 | each stream ever started has a plan from the frame its generation's startFrom was given |
| `Transport.RunningPlan` | frontend/lib/lab-stream/engine.ts:392-404 | the running stream follows the loop now set, from the frame asked for last |
| `Transport.SeekAsks` | frontend/lib/lab-stream/engine.ts:235-241 | a seek during music is what the next stream answers to |
| `Transport.PendingStartsAreServed` | frontend/lib/lab-stream/engine.ts:383-390 | a start that waits has its timer, flush or answer under way in every reachable state |
| `Transport.QuietPortStarts` | frontend/lib/lab-stream/engine.ts:383-404 | timer, flush and answer one after the other start the stream that waits, at position 0 |
| `Transport.EndBelongsToTheStream` | frontend/lib/lab-stream/engine.ts:421-425 | playback ends only on the word of a quantum of its own generation |
| `Transport.SetLoopForgetsTheSeek` | frontend/lib/lab-stream/engine.ts:247-263 | a loop set while a seek's flush is unanswered, after any timers, messages and quanta, keeps the seek exactly when there is no plan yet or the old plan's stream stands at the very frame |
| `Transport.CurrentFrameIsHeardExactlyWhen` | frontend/lib/lab-stream/engine.ts:226-233 | the current frame, and with it the anchor of a stop, is the frame heard exactly when the read word stands for the true counter |
| `Transport.FlushedSeekGoesBack` | frontend/lib/lab-stream/engine.ts:335-340 | once the worklet has taken the flush the old plan's stream stands at its first frame |
| `Transport.ListenersKeepTheHandshakeExactlyWhen` | frontend/lib/lab-stream/engine.ts:375-390 | whatever calls listeners make on 'priming', the handshake's invariant survives exactly when none of them takes effect |
| `Transport.CallTakesEffectExactlyWhen` | frontend/lib/lab-stream/engine.ts:219-263 | there every call does but a play and a refused loop |
| `Transport.PlayingListenersMayCall` | frontend/lib/lab-stream/engine.ts:414-425 | on 'playing', in the middle of a tick, they may call anything |
| `Transport.ListenersMustNotSeek` | frontend/lib/lab-stream/engine.ts:434-441 | a listener that seeks on 'priming' leaves a flush on its way under a started stream |
| `PcmDecode.SignExtends` | frontend/lib/lab-stream/pcm-decode.ts:58-59 | shifting left and right by 8 in 32 bits extends the sign of 24 bits |
| `PcmDecode.Encoded24IsReadBack` | frontend/lib/lab-stream/pcm-decode.ts:52-61 | every 24-bit sample comes back from its three bytes, wherever they lie |
| `PcmDecode.DecodeChannel` | frontend/lib/lab-stream/pcm-decode.ts:46-66 | output i of a channel is the sample of frame i, and nothing else is written |
| `PcmDecode.DecodeAligned` | frontend/lib/lab-stream/pcm-decode.ts:30-37 | the word-aligned path for floats yields the same samples |
| `PcmDecode.DecodeInterleaved` | frontend/lib/lab-stream/pcm-decode.ts:10-70 | which arguments are refused, untouched; otherwise every channel is the deinterleaved source |
| `ScalerPolicy.RentsExactlyWhen` | internal/scaler/decide.go:86-107 | rents exactly with no instance, fresh waiting jobs, known sufficient credit and no recent failed rent |
| `ScalerPolicy.StaleDataOnlyAges` | internal/scaler/decide.go:109-122 | without fresh queue data a listed instance goes exactly by age or failed boot, and the timer stays |
| `ScalerPolicy.ActiveLeasesKeepTheInstance` | internal/scaler/decide.go:109-130 | running leases keep it until it is too old or never booted |
| `ScalerPolicy.IdleExactlyWhen` | internal/scaler/decide.go:109-139 | a running instance goes for idleness exactly when nothing waits or runs and the timer has reached the limit |
| `Scaling.Scaler.SaveState` | internal/scaler/scaler.go:165-183 | the history is cut to its last 50 entries, and the file becomes the memory if the write works |
| `Scaling.Scaler.WasDestroyed` | internal/scaler/scaler.go:283-292 | whether the history holds a destroy of the id within the grace time |
| `Scaling.Scaler.Reconcile` | internal/scaler/scaler.go:299-334 | destroys again, adopts or destroys orphans exactly as the listing and the state say |
| `Scaling.Scaler.FirstPass` | internal/scaler/scaler.go:300-313 | our recently destroyed instances are destroyed again, and the rest of ours kept in order |
| `Scaling.Scaler.SecondPass` | internal/scaler/scaler.go:325-333 | every kept instance other than the state's is destroyed |
| `Scaling.Scaler.Rent` | internal/scaler/scaler.go:405-440 | a failure is remembered, even of a create that made the instance; a success is saved with timer and failure cleared |
| `Scaling.Scaler.Close` | internal/scaler/scaler.go:465-478 | the instance moves to the history, and the timer is cleared |
| `Scaling.Scaler.Destroy` | internal/scaler/scaler.go:442-454 | a failed destroy keeps the state for the next tick |
| `Scaling.Scaler.Tick` | internal/scaler/scaler.go:212-280 | one observe, decide, act cycle, nothing at all without a listing |
| `Scaling.OneGoodTickIsEnough` | internal/scaler/scaler.go:212-334 | from any state, one tick with a truthful listing and working destroys leaves at most one labelled instance |
| `ScalingRuns.EveryRunKeeps` | internal/scaler/scaler.go:212-334 | any run of partial ticks, crashes, failed calls and saves keeps the invariant of cloud, memory and file |
| `ScalingRuns.SecondInstanceExactlyWhen` | internal/scaler/scaler.go:325-333 | a step makes a second instance exactly when it creates one in a tick that failed to destroy an orphan which has not died since |
| `ScalingRuns.NeverTwoInstances` | internal/scaler/scaler.go:212-334 | with truthful listings, over any run, there are never two labelled instances exactly when there is no such create |
| `ScalingRuns.ExactListingsSuffice` | internal/scaler/scaler.go:299-334 | with listings of exactly the live instances that case never arises |
| `ScalingRuns.LaggingListingRentsASecond` | internal/scaler/scaler.go:325-333 | with a listing that names a dead instance too, a tick with failed destroys rents a second |
| `ScalingRuns.DestroysOnlyOurs` | internal/scaler/scaler.go:294-334 | every destroy ever called names an instance the scaler created or saw with its label |
| `ScalingRuns.TimerIsTrueExactlyWhen` | internal/scaler/scaler.go:249-253 | after any run the timer in memory was started by a decision with no busy one since, exactly when since some moment without a timer no crash brought back a cleared one |
| `ScalingRuns.IdleShutdownIsJustified` | internal/scaler/decide.go:131-139 | a shutdown for idleness comes at least the limit after the timer, and is justified exactly under that condition, through failed destroys, failed saves and other crashes |
| `ScalingRuns.TimersAlwaysTrueExactlyWhen` | internal/scaler/scaler.go:165-183 | the timer is true in every state of a run exactly when no crash comes with a timer in the file and no successful save since a busy decision |
| `ScalingStories.ForgottenClearEndsABusyInstance` | internal/scaler/scaler.go:249-253 | with limits as New leaves them, a whole run with truthful listings in which a cleared timer is not saved, a crash brings it back, and the next idle look destroys a busy instance |
| `ScalingStories.LaggingListingEndsWithTwo` | internal/scaler/scaler.go:299-334 | a whole run with truthful listings, two failed creates and two failed destroys that ends with two labelled instances alive |
| `ScalingRuns.TimerSurvives` | internal/scaler/decide.go:80-86 | failed destroys, crashes and ticks that learn nothing leave the timer as it is |
| `EventStream.BrokerObject.Subscribe` | internal/jobs/broker.go:35-43 | a new channel for the job without a pending wake-up |
| `EventStream.BrokerObject.Cancel` | internal/jobs/broker.go:44-55 | that channel no longer listens, the others do |
| `EventStream.BrokerObject.Publish` | internal/jobs/broker.go:57-66 | every subscriber of the job has a wake-up pending afterwards, no more than one |
| `EventStream.Stream.CatchUp` | internal/jobs/sse.go:63-82 | writes the rows up to the first failed write or terminal event, with the last id following each write |
| `EventStream.EveryRunKeeps` | internal/jobs/sse.go:48-114 | any interleaving of commits, notifications, queries, writes and disconnections keeps the invariant |
| `EventStream.DeliveredIsTheLog` | internal/jobs/sse.go:48-114 | what a client was sent is exactly the events of its job after its Last-Event-ID up to the last one sent, once each, in order |
| `EventStream.BlockedMeansCaughtUp` | internal/jobs/broker.go:57-66 | a handler that blocks with no wake-up pending has sent every event announced since it subscribed |
| `EventStream.QueriesCatchUp` | internal/jobs/sse.go:63-82 | once a query's rows are written, all that was committed when it ran is sent, announced or not |
| `EventStream.EndsWithTheTerminalEvent` | internal/jobs/sse.go:84-93 | the server ends a stream normally only when the client has the terminal event |
| `EventStream.QueueLogsAreSuch` | internal/jobs/store.go:255-293 | the logs of the queue are ordered as assumed, and closed exactly when the job has ended |
| `DrumStore.EditFile.WriteDoc` | internal/drums/store.go:169-198 | the file becomes the document or stays as it was, and a vanished job directory is told apart from other faults |
| `DrumStore.EditFile.SaveEdits` | internal/drums/store.go:113-139 | compare and swap on the revision: a conflict names the current one, a success raises it by one |
| `DrumStore.EditFile.MarkExported` | internal/drums/store.go:145-163 | marks exactly the current revision not yet marked, writing the seed when there is no file |
| `DrumStore.LockTable.Enter` | internal/drums/store.go:51-60 | one more reference on the job's entry, made when there is none |
| `DrumStore.LockTable.Drop` | internal/drums/store.go:61-69 | one reference less, and the entry goes with the last |
| `DrumRuns.UndisturbedWork` | internal/drums/store.go:113-198 | the separate steps of a holder whom nobody disturbs are the whole operation |
| `DrumRuns.NeverTwoHolders` | internal/drums/store.go:51-70 | two goroutines never hold the lock of one job |
| `DrumRuns.EveryRunKeeps` | internal/drums/store.go:51-198 | any interleaving of calls, lock moves, file steps, crashes and removals keeps the invariant |
| `DrumRuns.EntriesCountUsers` | internal/drums/store.go:51-70 | an entry exists exactly while somebody uses the job, and its count is the number of those who hold, wait or leave |
| `DrumRuns.SavesAreOneLine` | internal/drums/store.go:109-139 | the k-th save to go through was based on revision k and made k + 1, no two share a base, and the file is the last one's |
| `DrumRuns.RenameIsThePoint` | internal/drums/store.go:183-197 | an operation takes effect at its rename, on the document then current |
| `DrumRuns.ConflictsAreTrue` | internal/drums/store.go:126-128 | a refused save names the revision current at that moment, which is not its base |
| `DrumRuns.ReadersSeeRevisions` | internal/drums/store.go:79-107 | a reader without the lock finds no file or a complete revision, whatever was interrupted, its mark never ahead |
| `DrumRuns.RemovedStaysRemoved` | internal/drums/store.go:165-175 | nothing brings a removed job's directory or files back |
| `DrumRuns.WriteToARemovedJob` | internal/drums/store.go:173-178 | a write to a removed job says that the job is gone |
| `DrumDoc.Profile.KeyOfArticulation` | internal/drums/profile.go:66-80 | the articulation of a key is written back to that key, and only unmapped keys have none |
| `DrumDoc.SeedIds` | internal/drums/doc.go:69-71 | the ids of a seed follow the grammar and differ |
| `DrumDoc.DecimalIsInjective` | internal/drums/doc.go:96-96 | different numbers print differently |
| `DrumDoc.Seed` | internal/drums/doc.go:76-99 | revision 0 with one event for each mapped note of positive velocity, and a warning for each other |
| `DrumDoc.Validate` | internal/drums/doc.go:111-148 | accepts exactly the acceptable event lists and then returns them sorted by time |
| `DrumDoc.SortedIsStable` | internal/drums/doc.go:146-146 | sorting orders by time, keeps the events and the order of those of equal time |
| `DrumDoc.SeedIsAcceptable` | internal/drums/doc.go:73-99 | the validation accepts every seed of in-range notes |
| `DrumDoc.SeedIsSorted` | internal/drums/doc.go:146-146 | and leaves it as it is |
| `DrumDoc.Tracks` | internal/drums/export.go:59-73 | the exported notes, or a refusal exactly when an articulation has no key |
| `DrumDoc.ExportOfTheSeed` | internal/drums/export.go:56-73 | exporting the untouched seed gives what the worker wrote, less the notes the seed drops |
| `DrumDoc.SeedRoundTrip` | internal/worker/stages.go:505-510 | with all notes playable the export equals the worker's notes exactly with a grid, with no tempo or a positive one, or with all notes at 0 |
| `DrumDoc.SeedRoundTripAlways` | internal/pipeline/tempo/tempo.go:38-49 | so it does for every tempo the parser lets through |
| `Mixdown.Decoder.ReadFrames` | internal/pipeline/peaks/wav.go:128-163 | the next whole frames, perhaps fewer than asked for, of those declared and really there; the end exactly when none are left |
| `Mixdown.AddSource` | internal/drums/mixdown.go:141-162 | adds the next n samples of a source, silence behind its end, through any short reads |
| `Mixdown.MixChunk` | internal/drums/mixdown.go:130-162 | the accumulator holds the sums of all sources over the chunk |
| `Mixdown.SumWavs` | internal/drums/mixdown.go:126-170 | the output is the rounded sum of all sources zero-padded to the longest, for any chunk size, short reads and truncated files included |
| `Mixdown.SumsArePointwise` | internal/drums/mixdown.go:75-77 | sample by sample |
| `Mixdown.OpenInputs` | internal/drums/mixdown.go:89-116 | accepts only inputs of one format whose longest fits a WAV file, and takes its length |
| `WavHeader.FloatHeader` | internal/drums/mixdown.go:180-203 | the bytes with Go's wrapping arithmetic; under the guard the lengths do not wrap |
| `WavHeader.GuardedLength` | internal/drums/mixdown.go:114-116 | under the guard frames and data length fit 32 bits with room for the header |
| `WavHeader.HeaderIsConsistent` | internal/drums/mixdown.go:177-203 | 58 bytes, RIFF size plus 8 is the file length, fact and data chunks say the true lengths |
| `WavHeader.HeaderRoundTrip` | internal/pipeline/peaks/wav.go:36-126 | reading the file back gives its rate, channels and frames with samples from byte 58 on, whatever the derived fields |
| `WavHeader.DerivedFields` | internal/drums/mixdown.go:193-194 | the header's byte rate at byte 28 and block size at byte 32 read back right exactly while they fit 32 and 16 bits |
| `WavHeader.MixIsExactExactlyUpToTwo` | internal/drums/mixdown.go:27-29 | every sum of n 24-bit stems is stored exactly in single precision if and only if n is at most two |
| `WavHeader.ThreeStemsNeedNotBe` | internal/drums/mixdown.go:27-29 | three samples whose sum is not |
| `RateLimit.Limiter.Allow` | internal/youtube/ratelimit.go:44-63 | admits exactly when the bucket's level reaches one, takes it, and else names the wait |
| `RateLimit.Limiter.MaybeSweep` | internal/youtube/ratelimit.go:68-79 | drops exactly the buckets idle long enough to be full again, at most once per interval |
| `RateLimit.SweepKeepsLevels` | internal/youtube/ratelimit.go:65-79 | a sweep changes no key's level, now or later |
| `RateLimit.SweepingChangesNothing` | internal/youtube/ratelimit.go:44-79 | over any requests in order of time the limiter decides as one that never deletes |
| `RateLimit.WindowBound` | internal/youtube/ratelimit.go:44-63 | in any window of length T at most burst + rate * T requests of a key are admitted |
| `RateLimit.WaitIsExact` | internal/youtube/ratelimit.go:57-60 | after a refusal the next request is admitted from the named wait on and not before |
| `LruCache.Cache.Get` | internal/youtube/cache.go:33-48 | an unexpired entry is returned and moved to the front, an expired one removed; list and index stay one |
| `LruCache.Cache.Put` | internal/youtube/cache.go:50-66 | the entry is at the front with a new life, and the oldest are dropped down to the limit |
| `LruCache.NeverOverfull` | internal/youtube/cache.go:50-66 | never more than max entries and no id twice, over any gets and puts |
| `LruCache.HitIsLatest` | internal/youtube/cache.go:33-48 | a hit returns what the id was put with last, before that put expires |
| `LruCache.MissMeansCrowded` | internal/youtube/cache.go:60-65 | a miss on an unexpired id means at least max other ids were put or hit since it was used |
| `Entitlement.Load` | internal/models/models.go:125-138 | the registry by id, later entries replacing earlier ones, and whether it is sound |
| `Entitlement.Validate` | internal/models/models.go:143-184 | accepts exactly the sound registries |
| `Entitlement.ValidateRecipe` | internal/models/models.go:145-163 | a recipe is in order exactly when engine, stem count and known checkpoints say so |
| `Entitlement.ValidateOffer` | internal/models/models.go:164-184 | a stack may offer a recipe exactly when it is known and its class allowed there |
| `Entitlement.ValidateStack` | internal/models/models.go:164-184 | a stack is in order exactly when every offer is |
| `Entitlement.Check` | internal/models/models.go:248-264 | returns a recipe exactly when both the job's and the runner's stack may load all its checkpoints |
| `Entitlement.Class` | internal/models/models.go:90-97 | public exactly when all checkpoints of the recipe are |
| `Entitlement.VerifyFiles` | internal/models/verify.go:30-58 | refuses an image with a file its stack must not hold or whose checksum is wrong; otherwise exactly the ids whose files are there |
| `Entitlement.Scan` | internal/models/verify.go:30-73 | the recipes listed are exactly those whose checkpoints are all verified |
| `Entitlement.Choose` | internal/jobs/handlers.go:176-210 | which requests are refused and what the accepted ones are created with |
| `Entitlement.CheckLease` | internal/agent/agent.go:178-197 | the runner takes a lease exactly when the recipe is known, offered by it, and allowed to both stacks |
| `Entitlement.PublicJobsLoadPublicWeights` | internal/models/models.go:248-264 | a job on the public stack is run by no runner with a checkpoint that is not public |
| `Entitlement.PublicInventoryIsPublic` | internal/models/verify.go:30-73 | a public runner's scanned inventory holds only recipes that are all public |
| `Entitlement.LoadedIdsAreUnique` | internal/models/models.go:125-138 | a manifest without repeated checkpoint ids loads into such a registry |
| `Entitlement.InventoryIsPublicExactlyWhen` | internal/models/verify.go:30-73 | every public image's inventory is all public exactly when the manifest has no recipe whose ids all have a file a public image may hold while the last entry of one of them is not public |
| `Entitlement.UniqueIdsFoolNobody` | internal/models/verify.go:30-73 | unique ids are enough for that |
| `Entitlement.RepeatedIdsFoolTheScan` | internal/models/models.go:143-184 | a manifest that validate accepts, and a public image whose inventory lists a recipe that is not public |
| `Entitlement.ManifestKeysRecipes` | internal/models/models.go:130-136 | a loaded registry finds each recipe under its own id and each checkpoint under its last entry |
| `Entitlement.RecipesAgree` | internal/jobs/model.go:103-122 | the claim query and the server agree on a row's recipe exactly when it has none or a known one |
| `Entitlement.ChosenRowsStay` | internal/jobs/handlers.go:198-210 | what was chosen at creation is in the row and survives every later move |
| `Entitlement.GrantedLeasesAreAccepted` | internal/gpu/store.go:146-177 | every lease the claim grants on a row that create wrote passes the runner's own check |
| `RunnerHeaders.ParseRunner` | internal/gpu/protocol.go:60-92 | the capabilities read from the three headers, defaults for an old runner included |
| `RunnerHeaders.RecipesRoundTrip` | internal/gpu/protocol.go:60-69 | a list of clean recipe ids goes through the header unchanged |
| `RunnerHeaders.HeadersAnnounceTheRunner` | internal/agent/agent.go:352-361 | what the server reads of a runner's headers is what the runner is |
| `RunnerHeaders.EveryGrantedLeaseIsAccepted` | internal/agent/agent.go:178-197 | from the form through the headers to the runner: a granted lease is accepted, and for a public job all weights are public |
| `EntitledRuns.RowsStayChosen` | internal/jobs/handlers.go:198-210 | in every reachable state of the service every row still holds what create chose |
| `EntitledRuns.RunsGrantAcceptedLeases` | internal/agent/agent.go:178-197 | in any run, whatever job the claim may offer a runner on its headers, the runner accepts the lease, and a public job loads only public weights |

## Left out

- HTTP routing, JSON, multipart upload, authentication, URL checks and response texts: plumbing around the store calls. Captions and error texts are symbolic, statuses an enumeration, so `ErrInvalidStatus` has no counterpart.
- Postgres itself: serialised transactions, row locks, session advisory locks and in-order notification are assumed, event ids are taken in commit order per job, and the partial unique index on active leases is assumed in the statement-level model. The loss of a lock session is not modelled.
- Local demucs mode and the `separate` stage it runs in the worker: development only.
- Stage contents (ffmpeg, librosa, demucs, packaging), the agent's file transfers, and the package of a resumed job: external programs. The worker's timers, polls and log lines.
- Goroutines as classes: the worker's loops appear as steps of `Pipeline`, not as methods; the class methods of the stores stand for one atomic call each, and interleaving inside them only exists in `LeaseRaces`.
- Leases.Store.Complete: at method level a fault in the job's move keeps the lease active in one step; that closing and reopening are two statements is modelled in `LeaseRaces`.
- Rings.SharedRings.Write: a block longer than the ring, written on a negative lead, throws in the source and is excluded.
- Pipeline.EveryRunKeeps: a database fault that swallows the failure policy is not a step of it; `LeaseInvariant.LostPolicyStrandsTheLastAttempt` says what such a fault does. The lock key of a job is an arbitrary function of its id.
- GpuWait.Watchdog.Note: the rows of one query have distinct ids, as the primary key ensures, and query and clock are read at one moment.
- RunnerProgress.CaptionsFollowTheBands: the fractions are reals, so that `int64(x * 1000)` truncates the exact product; other writers of the job row are left out while the lease is active.
- Audio meters, gain ramps, clock publishing, statistics and `resumeContext`: display state and the browser's autoplay rules. Re-initialising an engine after `destroy` and `NaN` seek positions.
- Playback.SampleExact: streamers that were aborted never call back, decoders yield exactly the frames asked for, and ring sizes go up to 2^30 frames; sources and outputs are reals.
- Transport.EveryRunKeeps: listeners do not call back into the engine; what their calls would do is in `Transport.ListenersKeepTheHandshakeExactlyWhen`, where the calls of a listener do not call listeners again.
- Rounding: floating-point numbers are reals with NaN and infinities where a comparison looks for them; the rounding to single precision is a parameter of the mixdown. Durations and times are integers or reals and are not cut to nanoseconds.
- ScalingRuns.NeverTwoInstances: offers, cost, the ssh tunnel, logging and the timestamps of `track` are left out (its save stays); a create takes effect at once or not at all, though it may report an error after creating.
- EventStream.EndsWithTheTerminalEvent: jobs are not deleted while a stream is open; headers and flushing are left out.
- DrumRuns.ReadersSeeRevisions: a crash loses the process but not what it wrote, so power loss and `fsync` are left out; removing a job directory is two steps, its files first.
- DrumDoc.Validate: returns the sorted events instead of sorting the caller's slice; the sort is a stable insertion, which fixes the result but not the algorithm.
- Mixdown.SumWavs: leaves out cancellation and write errors.
- WavHeader.HeaderRoundTrip: the reader is a function over the bytes of a file; seeking and short files end it as reading past the end does.
- LruCache.Cache.Get: a list element is an id in the list and a payload in the index.
- Entitlement.Scan: the recipes found are a set; the source sorts them.
- The React, Next.js, FastAPI and websocket code, the legacy importer, listing, pagination, file names and storage paths: thin or bound to I/O.

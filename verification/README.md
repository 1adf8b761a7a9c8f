# VoxBench: a verified model

VoxBench runs voice-agent tests: a control plane queues runs for workers, a bridge carries audio between a
telephone call and a realtime provider, an observer ships what happened to the control plane, and the control
plane derives evidence from it. This project models the parts of it that hold state or arithmetic and proves
what they promise.

| files | what they model |
|---|---|
| `JobQueue`, `QueueRows`, `QueueRuns`, `QueueBounds`, `RunWorker` | the persistent run-job queue: leases, fencing, the attempt limit, the worker loop |
| `Resampler`, `Pcm16`, `Arith` | the streaming PCM16 resampler against a closed form |
| `G711` | the mu-law codec |
| `PacketSources`, `PlaybackBuffer`, `BoundedSample`, `ProviderOutput`, `BridgeState`, `FrameCutter`, `EventIds`, `CallLog`, `Bridge` | the realtime bridge's output path: cutting provider audio into frames, the playback queue, bursts, interruptions |
| `Observer`, `Delivery`, `Discontinuity`, `Doubles` | observation batches, at-least-once delivery made exactly-once, the discontinuity detector with its double-precision times |
| `Evidence`, `Rtp`, `Sorting` | response pairing, start waits, RTP gaps and stalls |
| `Merge`, `Registry` | overlay merging and parent resolution |

How the models are built:

- A database transaction is one step on two maps (jobs, runs). Rows that `SKIP LOCKED` would skip are an
  arbitrary set handed to the claim. Tokens and row ids are fresh. Clocks are arguments and arbitrary, except
  where a lemma says that they do not go back.
- Where a method of one coroutine or thread awaits, the others act: `RunJobWorker.Interfere` and
  `VoxBenchObserver.OthersObserve` state by contract what others may do (their bodies do nothing, which is one
  of the possibilities, and callers know only the contract); `RealtimeCallSession.OthersRun` executes an
  arbitrary number of steps of the writing coroutine and of the closing one, in any order, at arbitrary times.
- The call session's fields are spread over three objects by what touches them: `CallLog` (timeline, speech and
  bursts), `FrameCutter` (the producer's locals and counters) and `RealtimeCallSession` (positions, the writing
  coroutine). Times are microseconds, and amounts of audio are bytes, of which milliseconds are a fixed multiple.
- Times are exact, so a comparison exactly at a threshold is decided exactly; only the discontinuity detector models
  what double-precision rounding makes of that case.
- `round` is exact half-even rounding of a rational; the float quotient of the code cannot round differently at
  audio rates. Exceptions are `Err` values, or `Option<string>` where there is nothing to return.
- The gain and limiter stages enter as an arbitrary function of one chunk's bytes, since they keep no state.
- Invariants of the larger objects are stated as `forall n {:trigger Expose(n)} :: Expose(n) ==> P`, which means
  `P` but keeps the verifier from unfolding it where it is not needed.  Those of the session, which are made of
  such invariants, use `Open` in the same way, so that they can be unfolded without unfolding their parts.

Where code and expectation differ, the code is modelled:

- The resampler loses phase across chunks when a step can jump more than three samples, because the delete then
  removes fewer samples than the position is rewound by (`src/voxbench/media/pcm.py:60-63`).
- The evidence sample for a limit of 1 is the first value followed by the whole list, because a slice from minus
  zero is everything (`src/voxbench/telephony/audiosocket.py:1315-1322`). The callers use 16 and 32.
- Merging overlays does not associate in general (`src/voxbench/registry/merge.py:9-20`).
- The frame in flight does not always count as heard once its 20 ms are over: if frames of its item were dropped
  before it, the position is extrapolated from the last one played (`src/voxbench/telephony/audiosocket.py:951-966`).
- The frame in flight does not always count as heard once its 20 ms are over: if frames of its item were dropped
  before it, the position is extrapolated from the last one played (`src/voxbench/telephony/audiosocket.py:951-966`).
- Two jumps exactly 5 ms apart may or may not count as one incident, because both times are rounded
  (`src/voxbench/observability/observer.py:575-583`).

## Model

| member | source | states |
|---|---|---|
| `JobQueue.Store.Enqueue` | src/voxbench/control_plane/job_queue.py:102-131 | at most one job per run: an existing job is returned unchanged, otherwise a fresh queued row with no attempts appears and nothing else changes |
| `QueueRows.EnqueueAddsARow` | src/voxbench/control_plane/job_queue.py:102-131 | without a job for the run exactly one row is added, due at once with no attempts; with one nothing changes |
| `JobQueue.Store.SaveQueuedRun` | src/voxbench/control_plane/run_api.py:3646-3674 | only an unfinished run is taken; run row and job row appear together, and a run that already has a job is left as it is |
| `QueueRows.SaveAddsBothRows` | src/voxbench/control_plane/run_api.py:3646-3674 | the same for a run and its job in one transaction |
| `QueueRows.ArgumentLimits` | src/voxbench/control_plane/job_queue.py:351-362 | which worker ids, aliases and lease lengths are valid |
| `QueueRuns.Perform` | src/voxbench/control_plane/job_queue.py:102-254 | each operation of the queue object, argument checks included, is exactly the step that the runs below are made of |
| `JobQueue.Store.SelectClaimable` | src/voxbench/control_plane/job_queue.py:266-283 | the scan with `FOR UPDATE SKIP LOCKED` finds exactly the first claimable row, by availability, creation and id, that is not hidden by another lock |
| `JobQueue.PickIs` | src/voxbench/control_plane/job_queue.py:266-283 | the claim order has one first row, so the picked row is determined by the table, the hidden rows and the clock |
| `JobQueue.Store.Claim` | src/voxbench/control_plane/job_queue.py:133-169 | one transaction: the sweep, then the pick, then the lease under the fresh token, as `QueueRows` says of every row; invalid worker ids and lease lengths change nothing |
| `QueueRows.ClaimSweeps` | src/voxbench/control_plane/job_queue.py:285-305 | after an accepted claim no row is out of attempts and queued or expired; each that was is failed with `attempt-limit-exhausted` and without owner, token and expiry, and every other row but the picked one is as before |
| `QueueRows.ClaimTakesTheFirst` | src/voxbench/control_plane/job_queue.py:150-169 | the row leased is due and not locked, and of all such the one available first, then created first, then of the least id; owner, token, expiry, attempt and the final mark are as given; nothing is leased only if nothing such is due |
| `JobQueue.Store.Heartbeat` | src/voxbench/control_plane/job_queue.py:171-193 | true exactly for the unexpired holder, whose row alone gets a new expiry; otherwise false and no change |
| `QueueRows.HeartbeatMovesExpiry` | src/voxbench/control_plane/job_queue.py:171-193 | exactly the unexpired holder by worker and token gets the expiry `now + lease_seconds`, and no other column or row changes |
| `JobQueue.Store.Complete` | src/voxbench/control_plane/job_queue.py:195-219 | true exactly for the unexpired holder, whose row alone becomes completed and loses its lease |
| `QueueRows.CompleteEndsTheLease` | src/voxbench/control_plane/job_queue.py:195-219 | exactly the unexpired holder's row becomes completed without alias and lease columns, and nothing else changes |
| `JobQueue.Store.Fail` | src/voxbench/control_plane/job_queue.py:221-254 | the unexpired holder's row is queued again when a retry is allowed and attempts are left, else failed with the alias; each invalid argument is refused with its own error |
| `QueueRows.FailRetriesOrEnds` | src/voxbench/control_plane/job_queue.py:221-254 | exactly the unexpired holder's row is queued or failed with the alias, available after the delay and without lease columns, and nothing else changes |
| `QueueRows.RetryIsDueAfterItsDelay` | src/voxbench/control_plane/job_queue.py:236-250 | a job put back can be claimed exactly from the end of its delay on |
| `JobQueue.Store.CommitLeasedResult` | src/voxbench/control_plane/run_api.py:3676-3720 | a terminal run is written together with the end of its job, exactly for the unexpired holder of that job; otherwise neither row changes |
| `QueueRows.CommitWritesBoth` | src/voxbench/control_plane/run_api.py:3676-3720 | exactly for the unexpired holder of the run's own job the run row is the given one and the job has ended accordingly, with the run's alias if it failed; otherwise nothing changes |
| `QueueRuns.RunInv` | src/voxbench/control_plane/job_queue.py:133-254 | every state reached by any interleaving of events, clocks and crashes keeps the queue invariant (attempt limits, lease fields, grants) |
| `QueueRuns.GrantIs` | src/voxbench/control_plane/job_queue.py:133-169 | a granted lease is for a claimable row, carries that row's attempt number and expiry, and is marked final exactly at the limit |
| `QueueRuns.OneActiveHolder` | src/voxbench/control_plane/job_queue.py:308-320 | whatever the clocks say, two leases of one job that both pass the active-lease check have the same token and worker |
| `QueueRuns.ReclaimOrEndSupersedes` | src/voxbench/control_plane/job_queue.py:133-169 | once a job is granted again or is no longer leased, every earlier lease of it is superseded |
| `QueueRuns.SupersededIsPowerless` | src/voxbench/control_plane/job_queue.py:171-254 | heartbeat, complete, fail and commit with a superseded lease answer false, or are refused for their arguments, and change nothing |
| `QueueRuns.FencedForever` | src/voxbench/control_plane/job_queue.py:171-254 | a superseded lease stays powerless after any further events |
| `QueueRuns.AtMostOneResult` | src/voxbench/control_plane/run_api.py:3676-3720 | in every run of the system each job has at most one accepted final result |
| `QueueRuns.NoneAcceptedOnceTerminal` | src/voxbench/control_plane/job_queue.py:133-254 | a completed or failed row never changes again and no result is accepted for it |
| `QueueRuns.CommittedRunStays` | src/voxbench/control_plane/run_api.py:3646-3720 | the run row of a job that has ended is never rewritten by the queue's own operations |
| `QueueRuns.AcceptedResultStands` | src/voxbench/control_plane/run_api.py:3676-3720 | after an accepted commit, whatever follows, the run row is the committing holder's, the job's end agrees with it, and it was the only accepted result |
| `QueueBounds.AttemptsCountClaims` | src/voxbench/control_plane/job_queue.py:133-169 | the attempt counter equals the number of successful claims and never exceeds the limit |
| `QueueBounds.TransitionDescends` | src/voxbench/control_plane/job_queue.py:237-254 | every claim, retry or end strictly lowers the budget (remaining attempts first, state second), and terminal rows have none left |
| `QueueBounds.TransitionsBounded` | src/voxbench/control_plane/job_queue.py:266-305 | a job makes at most `2 * max_attempts + 1` state transitions in any run |
| `QueueBounds.AllTransitionsBounded` | src/voxbench/control_plane/job_queue.py:266-305 | from the empty table on, all jobs together make at most `2 * max_attempts` transitions each, and what is not a job makes none |
| `QueueBounds.LeasesAreDisjointFromTheStart` | src/voxbench/control_plane/job_queue.py:266-320 | with a clock that does not go back, the successive leases of one job occupy disjoint time intervals |
| `QueueBounds.PunctualHolderKeepsLease` | src/voxbench/control_plane/job_queue.py:171-193 | a holder whose heartbeats each land before the previous extension ends is never refused, swept or displaced, whatever others do |
| `QueueBounds.HalfLeaseOfSlack` | src/voxbench/control_plane/run_worker.py:72-79 | an interval of at most half the lease leaves half the lease as slack: heartbeats later than planned by less than that are still punctual |
| `RunWorker.AgreementInEveryRun` | src/voxbench/control_plane/run_worker.py:81-178 | with only workers and `save_queued_run` writing runs: a completed job has a completed run, a failed job has a failed run or one of the two aliases that never touch the run |
| `RunWorker.RetryQueues` | src/voxbench/control_plane/run_worker.py:148-178 | a worker's retry never ends a job, because a lease that is not final has attempts left |
| `RunWorker.RunJobWorker.RunOne` | src/voxbench/control_plane/run_worker.py:81-146 | one iteration, interleaved with anything others do: its claim comes first, and what it then writes under the lease is exactly what its outcome says: a completed run with its job; the job queued again, or a failed run with its job on the last attempt, with `engine-harness-error` after a raise, the run's own alias if it failed under a valid one, and `run-result-invalid` otherwise; a job failed because its run was not there; or nothing but heartbeats. The lease is lost only if a beat could not be sent or was refused, the ending was refused, or the heartbeat thread did not stop in time |
| `RunWorker.RunJobWorker.AgreementNow` | src/voxbench/control_plane/run_worker.py:81-178 | after whatever this worker and all others have done, job ends and run rows agree |
| `RunWorker.RunJobWorker.Attempt` | src/voxbench/control_plane/run_worker.py:98-146 | the same for the part after the claim; with any of the recorded outcomes every heartbeat was granted |
| `RunWorker.RunJobWorker.Conclude` | src/voxbench/control_plane/run_worker.py:121-146 | a completed execution is committed, any other is recorded as a failure under its own alias or the fallback, and a refusal by the queue is the only way to lose the lease here |
| `RunWorker.RunJobWorker.RecordFailure` | src/voxbench/control_plane/run_worker.py:148-178 | a failure puts the job back in the queue with the alias when the lease is not final, and otherwise commits exactly the run marked failed, and its job; the lease is reported lost exactly when the queue refused it |
| `RunWorker.RunJobWorker.KeepAlive` | src/voxbench/control_plane/run_worker.py:267-306 | the heartbeat thread writes nothing but heartbeats, whatever others do between them; it reports the lease lost only at a tick at which the queue was unavailable or refused the beat, and otherwise every beat was granted |
| `Resampler.Pcm16MonoStreamResampler.Process` | src/voxbench/media/pcm.py:22-28 | odd-length input is refused and changes nothing; otherwise output and retained state are those of the specification |
| `Resampler.Pcm16MonoStreamResampler.Flush` | src/voxbench/media/pcm.py:30-34 | the held samples are completed and the object is as new |
| `Resampler.Pcm16MonoStreamResampler.Produce` | src/voxbench/media/pcm.py:36-64 | the loop and the in-place prefix delete compute the specified output and state |
| `Resampler.EmitInterpolates` | src/voxbench/media/pcm.py:36-58 | whatever the object holds, each sample that a call produces is nearest to the interpolation at its position |
| `Resampler.ResamplePcm16Mono` | src/voxbench/media/pcm.py:67-75 | the one-shot helper refuses bad rates and odd lengths; otherwise it gives one sample for each `k` with `k * in / out` before the end, nearest to the linear interpolation there (ties to even, the last sample held) |
| `Resampler.OneShotIsClosedForm` | src/voxbench/media/pcm.py:67-75 | at every ratio, one chunk and one flush give the closed form: output k interpolates at `k * in / out`, the last sample held |
| `Resampler.ClosedFormInterpolates` | src/voxbench/media/pcm.py:45-58 | the closed form has exactly these samples |
| `Resampler.ChunkInvariantExactly` | src/voxbench/media/pcm.py:22-64 | the output is independent of how the stream is cut if and only if the input rate is at most three times the output rate |
| `Resampler.ChunkedIsOneShot` | src/voxbench/media/pcm.py:22-75 | up to that ratio, feeding chunks and flushing equals the one-shot result of their concatenation |
| `Resampler.ChunkingFails` | src/voxbench/media/pcm.py:60-63 | beyond that ratio a cut exists for which the stream yields more samples than the closed form |
| `Resampler.RetainsAtMostTwo` | src/voxbench/media/pcm.py:60-64 | whatever the state and the ratio of two different rates, at most two samples are retained after a chunk |
| `Resampler.RoundHalfEvenNearest` | src/voxbench/media/pcm.py:50-56 | the rounding used is to the nearest integer, ties to even |
| `G711.EncodeDecode` | src/voxbench/media/g711.py:11-31 | encoding a decoded code gives the code back for every code but 0x7F, the negative zero |
| `G711.DecodeEncode` | src/voxbench/media/g711.py:11-31 | decoding an encoded sample gives the mid-point of the quantiser step that holds it |
| `G711.RoundTripMonotone` | src/voxbench/media/g711.py:11-31 | decode after encode is monotone over all integers |
| `G711.RoundTripOdd` | src/voxbench/media/g711.py:11-31 | decode after encode is odd |
| `G711.RoundTripIdempotent` | src/voxbench/media/g711.py:11-31 | decode after encode is idempotent |
| `G711.RoundTripError` | src/voxbench/media/g711.py:11-31 | its error is at most `(abs(s) + 132) / 32` of the clamped sample |
| `G711.OctetsRoundTrip` | src/voxbench/media/g711.py:34-45 | a buffer of codes survives decoding and encoding if and only if it does not contain 0x7F |
| `G711.PcmRoundTrip` | src/voxbench/media/g711.py:34-45 | a PCM buffer survives the codec sample by sample as one sample does, and a second pass changes nothing more |
| `PacketSources.Consume` | src/voxbench/telephony/audiosocket.py:1281-1312 | taking n bytes off the source queue fails exactly when it holds fewer (or n is not positive); otherwise the rest accounts for the remaining bytes, the window names exactly the chunks of the bytes taken, increasing, and its two times are the receipt times of the first and the last of them |
| `PacketSources.WindowNames` | src/voxbench/telephony/audiosocket.py:1302-1312 | a window built from the queue names every contributing chunk once, in order, with the receipt times of the first and the last |
| `BoundedSample.BoundedExactly` | src/voxbench/telephony/audiosocket.py:1315-1322 | the evidence sample keeps to its limit if and only if not (the limit is 1 and there is more than one value); in that case it is the first value followed by all of them |
| `BoundedSample.SampleIsOrdered` | src/voxbench/telephony/audiosocket.py:1315-1322 | for every other limit the sample is the first and the last values, in order, each place once |
| `PlaybackQueue.PlaybackBuffer.Put` | src/voxbench/telephony/audiosocket.py:329-339 | a full queue drops exactly its oldest frame, and the new frame is last; a queue that may hold nothing makes it raise |
| `PlaybackQueue.PlaybackBuffer.Get` | src/voxbench/telephony/audiosocket.py:341-347 | the oldest frame is delivered; nothing only when the queue is empty and closed |
| `PlaybackQueue.PlaybackBuffer.Drain` | src/voxbench/telephony/audiosocket.py:355-361 | all queued frames are handed back as dropped and the queue is empty |
| `PlaybackQueue.PlaybackBuffer.Clear` | src/voxbench/telephony/audiosocket.py:349-353 | all queued frames are dropped and counted |
| `PlaybackQueue.EveryFrameHasOneFate` | src/voxbench/telephony/audiosocket.py:329-361 | every frame put is delivered, dropped or queued, exactly one of them, and frames leave in the order they were put |
| `ProviderOutput.EpochIsOneShotPrefix` | src/voxbench/telephony/audiosocket.py:686-692 | while a provider keeps one rate of at most three times the telephony rate, the samples made since the last reset are the settled prefix of the one-shot resampling of all that was received |
| `ProviderOutput.OriginsAreChunks` | src/voxbench/telephony/audiosocket.py:729-737 | every byte rendered has a source chunk, and it is one of those received since the last reset |
| `ProviderOutput.NewRateStartsAfresh` | src/voxbench/telephony/audiosocket.py:686-692 | the first chunk after a reset, and each at another rate than the one before it, is resampled from nothing |
| `ProviderOutput.SameRateGoesOn` | src/voxbench/telephony/audiosocket.py:686-692 | a chunk at the rate of the one before it goes on where that one left the resampler |
| `FrameCutting.FrameCutter.Admit` | src/voxbench/telephony/audiosocket.py:658-679 | mono pcm16 of even length at a non-zero rate is numbered and remembered among the last 256; everything else is refused |
| `FrameCutting.RememberedIs` | src/voxbench/telephony/audiosocket.py:392-394 | of the chunks received the last 256 are remembered, in order |
| `FrameCutting.FrameCutter.ReceiveAudio` | src/voxbench/telephony/audiosocket.py:656-737 | succeeds exactly for usable audio; a new item resets the output path, and only a new item moves the start of the epoch; then the chunk's resampled and shaped bytes go to the end of the packet buffer, accounted to the chunk |
| `FrameCutting.FrameCutter.CutFrame` | src/voxbench/telephony/audiosocket.py:738-769 | a frame is exactly the bytes of 20 ms off the front, with the window and receipt times of its chunks, its ordinal and its position in the item; a frame size of zero raises |
| `FrameCutting.TwentyMsIs` | src/voxbench/telephony/audiosocket.py:464 | a frame holds two bytes for each sample of 20 ms, to the nearest sample: 320 bytes at 8 kHz, and exactly 20 ms at every multiple of 50 Hz |
| `FrameCutting.FrameCutter.Enqueue` | src/voxbench/telephony/audiosocket.py:747-769 | the frame is queued; exactly when the queue was full its oldest frame is dropped and counted by the metric |
| `FrameCutting.FrameCutter.TakeFrame` | src/voxbench/telephony/audiosocket.py:445-459 | a frame taken from the queue is whole, and its window names only chunks received after the last interruption |
| `FrameCutting.FrameCutter.NextPlaybackPosition` | src/voxbench/telephony/audiosocket.py:793-812 | 20 ms after the last frame of the same item, or 20 ms into a new one |
| `EventIds.RenderInjective` | src/voxbench/telephony/audiosocket.py:498-502 | two events of one session have the same id string only if they are the same event |
| `EventIds.IdTexts` | src/voxbench/telephony/audiosocket.py:498-502 | the text of every kind of id |
| `EventIds.DecimalReads` | src/voxbench/telephony/audiosocket.py:498-502 | the numbers in ids are decimal without leading zeros |
| `EventIds.IssuedOnce` | src/voxbench/control_plane/run_api.py:630-632 | ids issued in the session's order are pairwise distinct, as are their strings, which is what ingestion requires of a batch |
| `EventIds.PlaybackAlternates` | src/voxbench/telephony/audiosocket.py:832-918 | playback starts and stops strictly alternate, each start under the next number |
| `CallTimeline.CallLog.MarkOutputStarted` | src/voxbench/telephony/audiosocket.py:832-882 | a frame opens a burst when none is open or after a media gap, which first ends the open one with what had been written in it; its bytes count for the burst then open |
| `CallTimeline.CallLog.MediaGapIs` | src/voxbench/telephony/audiosocket.py:835-847 | a burst is split exactly when the next frame starts more than a frame's duration after the last one was played |
| `CallTimeline.CallLog.EndAssistantPlayback` | src/voxbench/telephony/audiosocket.py:890-918 | an open burst ends with one stop event that reports exactly the bytes of the frames started in it; otherwise nothing happens |
| `CallTimeline.CallLog.EndCallerSpeech` | src/voxbench/telephony/audiosocket.py:920-944 | an open caller speech ends with one event under the alias of the interruption that opened it |
| `CallTimeline.CallLog.ReportBargeIn` | src/voxbench/telephony/audiosocket.py:968-1201 | the events of an interruption: sampled recent chunks, sampled discarded frames, the partial frame, then the cleared-queue totals and the completion |
| `CallTimeline.LookbackIs` | src/voxbench/telephony/audiosocket.py:979-985 | the chunks considered as evidence are exactly the remembered ones received in the 250 ms up to the control event |
| `CallTimeline.Cleared` | src/voxbench/telephony/audiosocket.py:1146-1201 | recorded and omitted evidence frames add up to the dropped frames, and at most 32 are recorded |
| `CallTimeline.EvidenceIsBounded` | src/voxbench/telephony/audiosocket.py:986-1040 | at most 16 chunks and 32 frames are documented, and the partial frame if there is one |
| `CallTimeline.DiscardedAreOrigins` | src/voxbench/telephony/audiosocket.py:1117-1124 | the chunks reported as discarded are exactly those behind the bytes discarded |
| `RealtimeBridge.RealtimeCallSession.MarkOutputPlayed` | src/voxbench/telephony/audiosocket.py:814-830 | the last played position becomes the frame's only if it is of the current item, and it is then no longer in flight |
| `RealtimeBridge.RealtimeCallSession.EffectivePlaybackPosition` | src/voxbench/telephony/audiosocket.py:946-966 | the position told to the provider is the one the code computes, never exceeds that of a frame of the item that was taken from the queue, nor that of the frame in flight; 20 ms after its start that frame counts as heard in full exactly when no position of its item was played or the time elapsed bridges the distance from it |
| `RealtimeBridge.RealtimeCallSession.HeardPosition` | src/voxbench/telephony/audiosocket.py:546-563 | the provider is told the position reached if it is in the current item or there is none, and otherwise 0 of the current item |
| `RealtimeBridge.ToldWhatWasPlayed` | src/voxbench/telephony/audiosocket.py:546-563 | with a played frame of the current item and nothing in flight that is exactly the frame's end |
| `RealtimeBridge.HeardInFullExactly` | src/voxbench/telephony/audiosocket.py:946-966 | the exact condition for the frame in flight to count as heard in full once its 20 ms are over |
| `RealtimeBridge.OverflowFallsShort` | src/voxbench/telephony/audiosocket.py:951-966 | after an overflow, with 20 ms played and the frame ending at 140 ms in flight, 20 ms later only 40 ms count as heard |
| `RealtimeBridge.RealtimeCallSession.PumpStep` | src/voxbench/telephony/audiosocket.py:1420-1449 | one step of the writing coroutine between two awaits, cancellation and failure included; any number of them may fall at each await of the producer |
| `RealtimeBridge.RealtimeCallSession.CloseStep` | src/voxbench/telephony/audiosocket.py:1238-1260 | one step of closing the session: the first call closes the provider session, then the caller's speech and the open burst end; further calls change nothing |
| `RealtimeBridge.RealtimeCallSession.OthersRun` | src/voxbench/telephony/audiosocket.py:461-791 | whatever the writing and the closing coroutine do at an await of the producer, they only add to what has happened, take ids of their own kinds and count no frame as dropped |
| `RealtimeBridge.RealtimeCallSession.ProcessAudio` | src/voxbench/telephony/audiosocket.py:655-770 | a usable chunk, and no other, extends the epoch, or starts a new one after the frames put so far if its item is new; all invariants stay intact whatever the others do while its frames are queued, and no whole frame stays uncut |
| `RealtimeBridge.RealtimeCallSession.BargeIn` | src/voxbench/telephony/audiosocket.py:478-653 | unless the provider raises, nothing received before the control event is left in packet buffer, source queue, resampler or frame queue; the metric grows by the frames discarded, which are the last ones put; the partial frame discarded is what the packet buffer held; the chunks named are those behind all these bytes; announcement, interrupt, truncate request and completion are on the timeline with their step numbers, and truncate request and completion both hold the position the provider was told; the last two events report the rest; whatever burst was open before is over |
| `RealtimeBridge.RealtimeCallSession.HandleEvent` | src/voxbench/telephony/audiosocket.py:466-655 | which provider events end the caller's speech, which interrupt and what they do to the input state and to the start of the epoch, and that all others change nothing on the timeline; only a provider that raises makes it fail |
| `RealtimeBridge.RealtimeCallSession.HandleMessage` | src/voxbench/telephony/audiosocket.py:464-655 | any message has exactly its effect on the input state and on the start of the epoch, the frames of an epoch that ends are those its chunks amount to, no whole frame is left uncut, nothing that has happened is taken back; unusable audio makes it fail, and otherwise only a provider that raises does |
| `RealtimeBridge.RealtimeCallSession.ProduceProviderAudio` | src/voxbench/telephony/audiosocket.py:461-791 | over any sequence of messages and any interleaving with writing and closing: all promises hold throughout, frames, fates, written frames and timeline only grow, the queue is closed in the end, and unless a message makes it fail the frames put are exactly those that the messages amount to, in number, bytes, chunks behind each byte, positions and order |
| `RealtimeBridge.FramesOfOneItem` | src/voxbench/telephony/audiosocket.py:680-745 | a run of usable messages of one item amounts, after the frames of before, to exactly the whole frames of what all its chunks, in order, render to |
| `RealtimeBridge.RealtimeCallSession.FramesAreConserved` | src/voxbench/telephony/audiosocket.py:592-616 | at every await and between messages: frames put = frames delivered + total of the dropped-frames metric + frames queued, at most 250 of them, delivered in order |
| `RealtimeBridge.RealtimeCallSession.DropsAreOverflow` | src/voxbench/telephony/audiosocket.py:329-339 | since the last interruption a frame is dropped only when the frame 250 places behind it is put |
| `RealtimeBridge.RealtimeCallSession.OnlyLaterAudioIsQueued` | src/voxbench/telephony/audiosocket.py:586-592 | at every await and between messages: every frame ever put is whole and is a stretch of what the chunks of its epoch render to, and those put since the last interruption, hence all still queued, come from chunks received after it only |
| `RealtimeBridge.RealtimeCallSession.AtMostOneStale` | src/voxbench/telephony/audiosocket.py:567-592 | frames are reported as started once each, in order; of those reported since the last interruption all but at most one hold only audio received after it, and that one was being written when the queue was drained |
| `RealtimeBridge.RealtimeCallSession.FramesRenderTheEpoch` | src/voxbench/telephony/audiosocket.py:729-745 | at every await and between messages: the frames since the last reset, the one in hand and the packet buffer are, joined, exactly what the chunks since then render to, byte by byte, and the window sources account for each byte |
| `RealtimeBridge.RealtimeCallSession.FramesAreTwentyMs` | src/voxbench/telephony/audiosocket.py:464 | at every await and between messages: every frame ever put is 20 ms of 16-bit samples to the nearest sample, 320 bytes at 8 kHz |
| `RealtimeBridge.RealtimeCallSession.PositionsAreTimes` | src/voxbench/telephony/audiosocket.py:738-812 | at a multiple of 50 Hz the position of a frame is the duration of its item's audio up to its end |
| `RealtimeBridge.RealtimeCallSession.AllPut` | src/voxbench/telephony/audiosocket.py:729-769 | with no whole frame left uncut, all frames ever put are those of the epochs that are over, then the whole frames of what the chunks of this epoch render to, each byte once |
| `RealtimeBridge.RealtimeCallSession.FramesAreAsLongAsOneShot` | src/voxbench/telephony/audiosocket.py:686-745 | while a provider keeps one rate of at most three times the telephony rate, those frames, with what is in hand and buffered, are as long as the settled part of the one-shot resampling of all that was received |
| `RealtimeBridge.RealtimeCallSession.TimelineIsSound` | src/voxbench/telephony/audiosocket.py:832-944 | at every await and between messages: all event ids are distinct, starts and stops alternate, and each stop reports the audio written since its start |
| `Observer.BoundedBatches` | src/voxbench/observability/observer.py:385-402 | the loop builds the specified split |
| `Observer.SplitIsSound` | src/voxbench/observability/observer.py:385-418 | merging the batches of a split gives the batch back in order, no batch exceeds a limit, none is empty |
| `Delivery.IngestServer.Ingest` | src/voxbench/control_plane/run_api.py:4724-4839 | a batch is accepted exactly when the run is running, limits and ids are sound, stages are configured, chunks are whole frames, and every chunk has the format of its stage, in the batch and since the stage's first audio; then exactly the events with unknown ids and all items of the other streams are appended and the formats kept; otherwise nothing changes |
| `Delivery.IngestServer.ConformingIsAccepted` | src/voxbench/control_plane/run_api.py:4739-4772 | while the run is running, a batch of items whose stages are configured and whose formats agree with those of their stages is accepted, and the formats go on agreeing |
| `Delivery.IngestDelivers` | src/voxbench/control_plane/run_api.py:4811-4829 | ingesting the next unacknowledged stretch, or it again, keeps the stored events a prefix of those observed that covers what was acknowledged |
| `Delivery.VoxBenchObserver.Send` | src/voxbench/observability/observer.py:743-756 | a request may be lost or applied without an answer; acknowledged means stored |
| `Delivery.VoxBenchObserver.SendAll` | src/voxbench/observability/observer.py:738-756 | batch after batch: acknowledged items, the unsent suffix and what is pending always make up everything observed, in order, with others observing at any point; what was observed, acknowledged or stored stays so on failure as on success |
| `Delivery.VoxBenchObserver.Restore` | src/voxbench/observability/observer.py:745-755 | the unsent suffix goes back in front of what was observed meanwhile |
| `Delivery.VoxBenchObserver.Flush` | src/voxbench/observability/observer.py:728-762 | whatever fails, what was observed stays observed, and each item is either acknowledged, and then stored, or pending, in order; stored events stay a duplicate-free prefix of those observed and equal them after a flush that succeeds with nothing observed since; it succeeds when every request is answered and the items conform |
| `Discontinuity.Detect` | src/voxbench/observability/observer.py:951-984 | the earliest of the strongest suspicious jumps is found, or none exists |
| `Discontinuity.SignalLevelIsImplied` | src/voxbench/observability/observer.py:976-980 | the signal-level condition never decides: a jump that large implies a sample that loud |
| `Discontinuity.SuspiciousIs` | src/voxbench/observability/observer.py:969-980 | a jump counts exactly if the samples are 8192 or more apart, and its magnitude is their distance |
| `Discontinuity.StageMonitor.ObserveStageAudio` | src/voxbench/observability/observer.py:561-629 | the stage state carried to the next chunk, and one event for a hit outside the dedup window |
| `Discontinuity.ResumeCarriesOn` | src/voxbench/observability/observer.py:561-575 | consecutive chunks of one format carry last frame, offset and last incident on; another format or a new stage starts from frame 0 with none |
| `Discontinuity.DetectionIgnoresChunking` | src/voxbench/observability/observer.py:561-629 | for a fixed format the strongest of the per-chunk hits, offsets shifted, is the one strongest hit of the whole stream, also across empty chunks |
| `Discontinuity.ApartOffTheBoundary` | src/voxbench/observability/observer.py:575-583 | the dedup comparison in double precision decides as exact arithmetic does for every gap but the one of exactly 5 ms, as long as `6000 * position + 5 * rate < 2^53` |
| `Discontinuity.TheBoundaryGoesEitherWay` | src/voxbench/observability/observer.py:575-583 | at exactly 5 ms the roundings decide: frames 0 and 40 at 8 kHz are apart, frames 961 and 1001 are not |
| `Discontinuity.EventsAreSpaced` | src/voxbench/observability/observer.py:561-629 | by the comparison as computed, all events are pairwise the dedup window apart and each suppressed hit is within it after an event, at any length of stream |
| `Discontinuity.EventsAreSpacedInTime` | src/voxbench/observability/observer.py:561-629 | in exact time, within that precision: events are at least 5 ms apart, and each suppressed hit is at most 5 ms after one |
| `Evidence.PairResponses` | src/voxbench/control_plane/run_api.py:1427-1472 | the loop with its open response yields one response per start observation, ended by the next start, a completion or the end of the timeline |
| `Evidence.ResponsesAreOfMetrics` | src/voxbench/control_plane/run_api.py:1416-1472 | every positive start metric makes a response and each response is of one; it ends at the next observation in time, completed exactly if that is a done metric, or with the timeline |
| `Evidence.ResponsesOrdered` | src/voxbench/control_plane/run_api.py:1416-1472 | responses are numbered in order and none ends after the next starts |
| `Evidence.CorrelatedActivities` | src/voxbench/control_plane/run_api.py:1475-1550 | one activity per alias that has a start event, in the order of start times |
| `Evidence.ActivityIs` | src/voxbench/control_plane/run_api.py:1486-1545 | an alias has an activity exactly if it has a start event; it runs from the first of these to the first stop event not before it, or to the end of the timeline |
| `Evidence.AssignPlaybacks` | src/voxbench/control_plane/run_api.py:1552-1591 | each response in turn takes the first playback in its window that is not taken yet, and waits until it starts; without one it waits to its own end or its window's, whichever is first, but not to before its start |
| `Evidence.AssignmentIsOrderedMatching` | src/voxbench/control_plane/run_api.py:1552-1591 | the greedy assignment is an injective, order-preserving partial matching inside the windows from one response to the next; each playback in a window before the one chosen, and every one if none is chosen, has been taken by an earlier response |
| `Evidence.AssistantStartWaits` | src/voxbench/control_plane/run_api.py:1552-1591 | the reported waits are those of that matching |
| `Rtp.GroupByStream` | src/voxbench/control_plane/run_api.py:2090-2102 | observations are grouped by stream, each group in order |
| `Rtp.PacketDiscontinuities` | src/voxbench/control_plane/run_api.py:2103-2160 | every stream that occurs is judged once, by its own neighbouring packets alone: reported are sequence gaps and arrival stalls and nothing else, and all of them, in order of arrival |
| `Rtp.PairIsJudged` | src/voxbench/control_plane/run_api.py:2104-2135 | a gap is a jump of 2 to 32767, missing one less; a stall is the next number on the same clock at least 100 ms later than its timestamp accounts for |
| `Rtp.ByArrivalIsStableSort` | src/voxbench/control_plane/run_api.py:2153-2160 | the evidence is sorted by arrival and stream name, nothing is added or lost, and ties stay in the order they were found |
| `Rtp.SortedByArrival` | src/voxbench/control_plane/run_api.py:2152-2160 | arrivals do not go back in the result, and at one arrival the stream names do not, in the order of texts |
| `Rtp.MissingOfStream` | src/voxbench/control_plane/run_api.py:2104-2160 | what is reported missing of a stream is what its own packets say, whatever is interleaved and however it is sorted |
| `Rtp.MissingIsExact` | src/voxbench/control_plane/run_api.py:2104-2118 | the missing counts of a stream sum to `last - first - (n - 1)` of the true sequence numbers if and only if every step is below 32768, however often the counter wraps (section 5.1 and appendix A.1 of RFC 3550) |
| `Merge.MergeOverlay` | src/voxbench/registry/merge.py:9-20 | the loop over the copied dictionary computes the recursive merge |
| `Merge.MergeIsOverlay` | src/voxbench/registry/merge.py:9-20 | merging yields the overlay itself if and only if the overlay covers the base |
| `Merge.MergeAssociatesExactly` | src/voxbench/registry/merge.py:9-20 | merging three overlays is independent of grouping if and only if the middle one nowhere replaces by a non-object an object that the last reopens without covering it |
| `Merge.MergeDoesNotAssociate` | src/voxbench/registry/merge.py:9-20 | a concrete triple for which grouping matters |
| `Merge.EmptyIsNeutral` | src/voxbench/registry/merge.py:9-20 | the empty overlay changes nothing, and merging into an empty base gives the overlay |
| `Merge.MergeIdempotent` | src/voxbench/registry/merge.py:9-20 | merging an overlay into itself gives it back |
| `Registry.ResolutionIsTheWalk` | src/voxbench/registry/service.py:79-94 | resolution ends on every parent graph: the left fold of merges from the root exactly when the chain ends, a cycle error exactly when it re-enters, not-found exactly when it leaves the registry |
| `Registry.RegistryService.RegisterConfig` | src/voxbench/registry/service.py:57-61 | a config with a name is stored under it, replacing any before; one without is refused |

## Left out

- RunWorker.RunJobWorker.RunOne: the supervisor thread around it, its counters and its back-off are not modelled.
- Delivery.VoxBenchObserver.Flush: exactly-once delivery is stated for timeline events, the one stream the endpoint deduplicates; the other four are delivered in order at least once.
- FrameCutting.FrameCutter.Resample: the resampler in use is represented by its rate and its two fields, and stepped by the function that the object's own method is proved against.
- FrameCutting.FrameCutter.ReceiveAudio: the order between the discontinuity events of a chunk and the growth of the packet buffer is not distinguished; nothing reads one in terms of the other.
- RealtimeBridge.RealtimeCallSession.BargeIn: the replies of the provider to an interrupt or truncate request, and whether they raise, are inputs of the event; the milliseconds, levels and lead times among the attributes are not modelled.
- RealtimeBridge.RealtimeCallSession.ProduceProviderAudio: a provider stream that raises by itself looks like one whose messages end; only the error reported differs.
- CallTimeline.CallLog.ObserveStages: how many discontinuities the audio stages report on a chunk is arbitrary here; `Discontinuity` models the detector.
- RealtimeBridge.RealtimeCallSession.OthersRun: a producer that is cancelled simply takes no further step; it is then at an await, where `Producing` holds.
- Delivery.IngestServer.Ingest: the answer for a run that is not known, base64 decoding and the recording files are not modelled.
- Discontinuity.ApartOffTheBoundary: exponents are unbounded in `Doubles`, so that nothing overflows or underflows.
- Rtp.PacketDiscontinuities: the capture-health reports attached to each item are not modelled.
- Evidence.CorrelatedActivities: the other derivations from activities (gaps, underruns, overlaps) and all incident titles and attributes.
- Registry.ResolutionIsTheWalk: manifests, their defaults (`_materialize_manifest_defaults`), validation and the order of keys in a dictionary.
- JobQueue.Store.CommitLeasedResult: only the status, the end and the failure alias of a run row are kept; the foreign key between jobs and runs is not enforced, which allows more than the database does.
- The caller's direction of the bridge (`send_audio`), the loopback server, the AudioSocket framing and the connection handling.
- The numeric work of the gain, limiter, RMS, silence and dB helpers.
- HTTP routing, request validation, SQL text, migrations, telemetry, provider SDK sessions, the user interface, scoring and reports.

/**
  What one call reports on its timeline: interruptions, the caller's speech, and the bursts in which
  assistant audio is written to the call.  These are the fields and methods of the call session that deal
  with the timeline; the session holds one `CallLog`.
 */
module CallTimeline {
  import opened Common
  import opened EventIds
  import opened BridgeState
  import opened BoundedSample
  import opened PacketSources

  const CHUNK_LOOKBACK := 250_000     // microseconds
  const CHUNK_EVIDENCE_LIMIT := 16
  const FRAME_EVIDENCE_LIMIT := 32

  datatype Attributes =
    | NoAttributes
    | Truncated(audioEndMs: int)
    | WrittenAudio(bytes: nat, reason: string)
    | SpeechEnded(completionObserved: bool, reason: string)
    | ChunkReceived(ordinal: nat)
    | FrameDiscarded(ordinal: nat, firstChunk: nat, lastChunk: nat, chunkCount: nat)
    | PartialDiscarded(bytes: nat, firstChunk: nat, lastChunk: nat, chunkCount: nat)
    | QueueCleared(droppedFrames: nat, frameBytes: nat, partialBytes: nat, chunkCount: nat, recorded: nat, omitted: nat)
    | Completed(path: string, playedMs: Option<int>, droppedFrames: nat)

  datatype TimelineEvent = TimelineEvent(id: EventId, name: string, attributes: Attributes)

  function IdsOf(timeline: seq<TimelineEvent>): seq<EventId> {
    seq(|timeline|, i requires 0 <= i < |timeline| => timeline[i].id)
  }

  lemma IdsAppend(timeline: seq<TimelineEvent>, event: TimelineEvent)
    ensures IdsOf(timeline + [event]) == IdsOf(timeline) + [event.id]
  {}

  /** One frame handed to the caller: the burst it belongs to, its size and its number. */
  datatype Written = Written(burst: nat, bytes: nat, ordinal: nat)

  function BytesOf(written: seq<Written>, burst: nat): nat {
    if written == [] then 0
    else
      var last := written[|written| - 1];
      BytesOf(written[..|written| - 1], burst) + if last.burst == burst then last.bytes else 0
  }

  lemma BytesAppend(written: seq<Written>, entry: Written, burst: nat)
    ensures BytesOf(written + [entry], burst) == BytesOf(written, burst) + if entry.burst == burst then entry.bytes else 0
  {
    assert (written + [entry])[..|written|] == written;
  }

  lemma {:induction false} NothingYet(written: seq<Written>, burst: nat)
    requires forall i :: 0 <= i < |written| ==> written[i].burst < burst
    ensures BytesOf(written, burst) == 0
  {
    if written != [] {
      NothingYet(written[..|written| - 1], burst);
    }
  }

  /** Every stop among the events belongs to a closed burst and reports exactly what that burst wrote. */
  ghost predicate StopsReport(timeline: seq<TimelineEvent>, written: seq<Written>, closed: nat) {
    forall i :: 0 <= i < |timeline| && timeline[i].id.PlaybackStop? ==> StopReports(timeline[i], written, closed)
  }

  ghost predicate StopReports(event: TimelineEvent, written: seq<Written>, closed: nat)
    requires event.id.PlaybackStop?
  {
    && event.id.playback <= closed
    && event.attributes.WrittenAudio?
    && event.attributes.bytes == BytesOf(written, event.id.playback)
  }

  lemma StopsReportAfterWrite(timeline: seq<TimelineEvent>, written: seq<Written>, closed: nat, entry: Written)
    requires StopsReport(timeline, written, closed) && entry.burst > closed
    ensures StopsReport(timeline, written + [entry], closed)
  {
    forall i | 0 <= i < |timeline| && timeline[i].id.PlaybackStop?
      ensures StopReports(timeline[i], written + [entry], closed)
    {
      BytesAppend(written, entry, timeline[i].id.playback);
    }
  }

  lemma StopsReportMore(timeline: seq<TimelineEvent>, event: TimelineEvent, written: seq<Written>, closed: nat, next: nat)
    requires StopsReport(timeline, written, closed) && closed <= next
    requires event.id.PlaybackStop? ==> StopReports(event, written, next)
    ensures StopsReport(timeline + [event], written, next)
  {
    forall i | 0 <= i < |timeline| && timeline[i].id.PlaybackStop? ensures StopReports(timeline[i], written, next) {
      assert StopReports(timeline[i], written, closed);
    }
  }

  function ChunkEvent(barge: nat, chunk: RecentChunk): TimelineEvent {
    TimelineEvent(ChunkEvidence(barge, chunk.ordinal), "provider_output_audio_chunk_received", ChunkReceived(chunk.ordinal))
  }

  function FrameEvent(barge: nat, frame: Frame): TimelineEvent
    requires frame.window.chunks != []
  {
    var chunks := frame.window.chunks;
    TimelineEvent(FrameEvidence(barge, frame.ordinal), "playback_frame_enqueued_before_barge_in",
                  FrameDiscarded(frame.ordinal, chunks[0], chunks[|chunks| - 1], |chunks|))
  }

  function ChunkEvents(barge: nat, chunks: seq<RecentChunk>): seq<TimelineEvent> {
    seq(|chunks|, i requires 0 <= i < |chunks| => ChunkEvent(barge, chunks[i]))
  }

  function FrameEvents(barge: nat, frames: seq<Frame>): seq<TimelineEvent>
    requires forall i :: 0 <= i < |frames| ==> frames[i].window.chunks != []
  {
    seq(|frames|, i requires 0 <= i < |frames| => FrameEvent(barge, frames[i]))
  }

  /** Numbered upwards from beyond `low`. */
  ghost predicate ChunksRise(chunks: seq<RecentChunk>, low: nat) {
    && (forall i :: 0 <= i < |chunks| ==> low < chunks[i].ordinal)
    && (forall i, j :: 0 <= i < j < |chunks| ==> chunks[i].ordinal < chunks[j].ordinal)
  }

  ghost predicate FramesRise(frames: seq<Frame>, low: nat) {
    && (forall i :: 0 <= i < |frames| ==> low < frames[i].ordinal && frames[i].window.chunks != [])
    && (forall i, j :: 0 <= i < j < |frames| ==> frames[i].ordinal < frames[j].ordinal)
  }

  function PartialEvents(barge: nat, bytes: nat, window: Option<Window>): seq<TimelineEvent>
    requires window.Some? ==> window.value.chunks != []
  {
    if bytes > 0 && window.Some? then
      var chunks := window.value.chunks;
      [TimelineEvent(PartialFrame(barge), "playback_partial_frame_buffered_before_barge_in",
                     PartialDiscarded(bytes, chunks[0], chunks[|chunks| - 1], |chunks|))]
    else []
  }

  /** The remembered chunks received at most the lookback before the control event, and not after it. */
  function InLookback(chunks: seq<RecentChunk>, controlAt: int): seq<RecentChunk> {
    if chunks == [] then []
    else
      var last := chunks[|chunks| - 1];
      InLookback(chunks[..|chunks| - 1], controlAt)
      + if 0 <= controlAt - last.receivedAt <= CHUNK_LOOKBACK then [last] else []
  }

  lemma {:induction false} LookbackRises(chunks: seq<RecentChunk>, controlAt: int, low: nat)
    requires ChunksRise(chunks, low)
    ensures ChunksRise(InLookback(chunks, controlAt), low)
    ensures forall chunk :: chunk in InLookback(chunks, controlAt) ==> chunk in chunks
  {
    if chunks != [] {
      LookbackRises(chunks[..|chunks| - 1], controlAt, low);
      var init := InLookback(chunks[..|chunks| - 1], controlAt);
      forall i | 0 <= i < |init| ensures init[i].ordinal < chunks[|chunks| - 1].ordinal {
        assert init[i] in chunks[..|chunks| - 1];
      }
    }
  }

  lemma SampledChunksRise(chunks: seq<RecentChunk>, low: nat)
    requires ChunksRise(chunks, low)
    ensures ChunksRise(BoundedEvidence(chunks, CHUNK_EVIDENCE_LIMIT), low)
  {
    SampleIsOrdered(chunks, CHUNK_EVIDENCE_LIMIT);
  }

  lemma SampledFramesRise(frames: seq<Frame>, low: nat)
    requires FramesRise(frames, low)
    ensures FramesRise(BoundedEvidence(frames, FRAME_EVIDENCE_LIMIT), low)
    ensures |BoundedEvidence(frames, FRAME_EVIDENCE_LIMIT)|
         == if |frames| <= FRAME_EVIDENCE_LIMIT then |frames| else FRAME_EVIDENCE_LIMIT
  {
    SampleIsOrdered(frames, FRAME_EVIDENCE_LIMIT);
  }

  function TotalBytes(frames: seq<Frame>): nat {
    if frames == [] then 0 else |frames[0].payload| + TotalBytes(frames[1..])
  }

  lemma {:induction false} TotalOfWhole(frames: seq<Frame>, packetBytes: nat)
    requires forall i :: 0 <= i < |frames| ==> |frames[i].payload| == packetBytes
    ensures TotalBytes(frames) == |frames| * packetBytes
  {
    if frames != [] {
      TotalOfWhole(frames[1..], packetBytes);
      assert |frames| * packetBytes == (|frames| - 1) * packetBytes + packetBytes;
    }
  }

  /** Every chunk that one of the windows names. */
  function DiscardedChunks(frames: seq<Frame>, window: Option<Window>): set<nat> {
    (set i, chunk | 0 <= i < |frames| && chunk in frames[i].window.chunks :: chunk)
    + if window.Some? then set chunk | chunk in window.value.chunks else {}
  }

  /** They are exactly the chunks behind the bytes discarded. */
  lemma DiscardedAreOrigins(frames: seq<Frame>, window: Option<Window>, origins: seq<seq<nat>>, partial: seq<nat>, n: nat)
    requires |origins| == |frames|
    requires forall i :: 0 <= i < |frames| ==> FrameOk(frames[i], origins[i], n)
    requires if window.Some? then Names(window.value, partial) else partial == []
    ensures forall chunk ::
      chunk in DiscardedChunks(frames, window)
      <==> chunk in partial || exists i :: 0 <= i < |origins| && chunk in origins[i]
  {
    forall chunk
      ensures chunk in DiscardedChunks(frames, window)
        <==> chunk in partial || exists i :: 0 <= i < |origins| && chunk in origins[i]
    {
      forall i | 0 <= i < |frames| ensures chunk in frames[i].window.chunks <==> chunk in origins[i] {
        assert FrameOk(frames[i], origins[i], n);
      }
    }
  }

  predicate Windowed(frames: seq<Frame>, window: Option<Window>) {
    && (forall i :: 0 <= i < |frames| ==> frames[i].window.chunks != [])
    && (window.Some? ==> window.value.chunks != [])
  }

  /** The events that document one interruption. */
  function Evidence(barge: nat, controlAt: int, recentChunks: seq<RecentChunk>, frames: seq<Frame>,
                    partialBytes: nat, window: Option<Window>): seq<TimelineEvent>
    requires Windowed(BoundedEvidence(frames, FRAME_EVIDENCE_LIMIT), window)
  {
    ChunkEvents(barge, BoundedEvidence(InLookback(recentChunks, controlAt), CHUNK_EVIDENCE_LIMIT))
    + (FrameEvents(barge, BoundedEvidence(frames, FRAME_EVIDENCE_LIMIT)) + PartialEvents(barge, partialBytes, window))
  }

  /** The totals reported with the cleared queue. */
  function Cleared(frames: seq<Frame>, partialBytes: nat, window: Option<Window>): (attributes: Attributes)
    ensures attributes.QueueCleared? && attributes.recorded + attributes.omitted == attributes.droppedFrames == |frames|
    ensures attributes.recorded == if |frames| <= 32 then |frames| else 32
    ensures attributes.frameBytes == TotalBytes(frames) && attributes.partialBytes == partialBytes
    ensures attributes.chunkCount == |DiscardedChunks(frames, window)|
  {
    SampleIsOrdered(frames, FRAME_EVIDENCE_LIMIT);
    var recorded := |BoundedEvidence(frames, FRAME_EVIDENCE_LIMIT)|;
    QueueCleared(|frames|, TotalBytes(frames), partialBytes, |DiscardedChunks(frames, window)|,
                 recorded, |frames| - recorded)
  }

  /** At most 16 chunks and 32 frames are documented, the first and the last ones, and the partial frame if there is one. */
  lemma EvidenceIsBounded(barge: nat, controlAt: int, recentChunks: seq<RecentChunk>, frames: seq<Frame>,
                          partialBytes: nat, window: Option<Window>)
    requires Windowed(BoundedEvidence(frames, FRAME_EVIDENCE_LIMIT), window)
    ensures var chunks := |InLookback(recentChunks, controlAt)|;
            |Evidence(barge, controlAt, recentChunks, frames, partialBytes, window)|
            == (if chunks <= 16 then chunks else 16) + (if |frames| <= 32 then |frames| else 32)
               + if partialBytes > 0 && window.Some? then 1 else 0
  {
    SampleIsOrdered(InLookback(recentChunks, controlAt), CHUNK_EVIDENCE_LIMIT);
    SampleIsOrdered(frames, FRAME_EVIDENCE_LIMIT);
  }

  function LastSteps(barge: nat, step: nat, cleared: Attributes, path: string, playedMs: Option<int>,
                     droppedFrames: nat): seq<TimelineEvent>
  {
    [TimelineEvent(BargeStep(barge, step), "playback_queue_cleared", cleared),
     TimelineEvent(BargeStep(barge, step + 1), "barge_in_completed", Completed(path, playedMs, droppedFrames))]
  }

  /** The last two events of an interruption report what it discarded. */
  ghost predicate IsReport(timeline: seq<TimelineEvent>, barge: nat, step: nat, path: string, playedMs: Option<int>,
                           frames: seq<Frame>, window: Option<Window>, partialBytes: nat)
  {
    && |timeline| >= 2
    && timeline[|timeline| - 2..] == LastSteps(barge, step, Cleared(frames, partialBytes, window), path, playedMs, |frames|)
  }

  ghost predicate Reports(timeline: seq<TimelineEvent>, barge: nat, step: nat, path: string, playedMs: Option<int>,
                          frames: seq<Frame>, window: Option<Window>, partialBytes: nat)
  {
    forall n: nat {:trigger Expose(n)} ::
      Expose(n) ==> IsReport(timeline, barge, step, path, playedMs, frames, window, partialBytes)
  }

  lemma LastTwo(a: seq<TimelineEvent>, b: seq<TimelineEvent>, c: seq<TimelineEvent>)
    requires |c| == 2
    ensures |a + (b + c)| >= 2 && (a + (b + c))[|a + (b + c)| - 2..] == c
  {}

  ghost predicate Extended(before: seq<TimelineEvent>, events: seq<TimelineEvent>, n: nat, now: seq<TimelineEvent>) {
    n <= |events| && now == before + events[..n]
  }

  lemma ExtendedByOne(before: seq<TimelineEvent>, events: seq<TimelineEvent>, n: nat, now: seq<TimelineEvent>)
    requires n < |events| && Extended(before, events, n, now)
    ensures Extended(before, events, n + 1, now + [events[n]])
    ensures n + 1 == |events| ==> now + [events[n]] == before + events
  {}

  /** What the end of a burst, or of the caller's speech, puts on the timeline. */
  function BurstEnd(burst: Option<nat>, bytes: nat, reason: string): seq<TimelineEvent> {
    if burst.None? then []
    else [TimelineEvent(PlaybackStop(burst.value), "assistant_playback_stopped", WrittenAudio(bytes, reason))]
  }

  function SpeechEnd(speech: Option<nat>, completionObserved: bool, reason: string): seq<TimelineEvent> {
    if speech.None? then []
    else [TimelineEvent(SpeechStop(speech.value), "provider_input_speech_stopped", SpeechEnded(completionObserved, reason))]
  }

  predicate OnlyDiscontinuities(events: seq<TimelineEvent>) {
    forall i :: 0 <= i < |events| ==>
      events[i].id.Discontinuity? && events[i].name == "stage.pcm_discontinuity_detected"
  }

  predicate OnlySpeech(before: Issue, after: Issue) {
    after == before.(speech := after.speech)
  }

  predicate OnlyPlayback(before: Issue, after: Issue) {
    after == before.(playback := after.playback, open := after.open)
  }

  /** Exactly the chunks received in the quarter of a second up to the control event. */
  lemma {:induction false} LookbackIs(chunks: seq<RecentChunk>, controlAt: int)
    ensures forall chunk ::
      chunk in InLookback(chunks, controlAt) <==> chunk in chunks && controlAt - 250_000 <= chunk.receivedAt <= controlAt
  {
    if chunks != [] {
      LookbackIs(chunks[..|chunks| - 1], controlAt);
      assert chunks == chunks[..|chunks| - 1] + [chunks[|chunks| - 1]];
    }
  }

  class CallLog {
    const telephonyRate: nat
    var timeline: seq<TimelineEvent>
    var bargeSequence: nat
    var activeSpeech: Option<nat>
    var playbackSequence: nat
    var activePlayback: Option<nat>
    var writtenBytes: nat
    var lastPlayedAt: Option<int>
    var lastFrameBytes: nat
    var discontinuities: nat
    ghost var written: seq<Written>   // every frame reported as started

    ghost function Issue(): Issue
      reads this`timeline
    {
      Issued(IdsOf(timeline))
    }

    /** The event ids were issued in order and the counters say up to where. */
    ghost predicate Counted()
      reads this
    {
      && InOrder(IdsOf(timeline))
      && Issue().barge == bargeSequence
      && Issue().playback == playbackSequence
      && Issue().open == activePlayback.Some?
      && Issue().discontinuity == discontinuities
      && Issue().speech <= bargeSequence
      && (activePlayback.Some? ==> activePlayback.value == playbackSequence > 0)
      && (activeSpeech.Some? ==> Issue().speech < activeSpeech.value <= bargeSequence)
    }

    /** The last burst that is over. */
    ghost function LastClosed(): int
      reads this
    {
      playbackSequence - if activePlayback.Some? then 1 else 0
    }

    /** What is reported as written is what was started since the burst began. */
    ghost predicate Accounted()
      reads this
    {
      && 0 <= LastClosed()
      && (forall i :: 0 <= i < |written| ==> written[i].burst <= playbackSequence)
      && writtenBytes == (if activePlayback.Some? then BytesOf(written, playbackSequence) else 0)
      && StopsReport(timeline, written, LastClosed())
    }

    ghost predicate Valid()
      reads this
    {
      forall n: nat {:trigger Expose(n)} :: Expose(n) ==> Counted() && Accounted()
    }

    constructor (telephonyRate: nat)
      ensures Valid() && timeline == [] && this.telephonyRate == telephonyRate
      ensures activePlayback == None && activeSpeech == None && playbackSequence == 0 && written == []
    {
      this.telephonyRate := telephonyRate;
      timeline, bargeSequence, activeSpeech, playbackSequence, activePlayback := [], 0, None, 0, None;
      writtenBytes, lastPlayedAt, lastFrameBytes, discontinuities, written := 0, None, 0, 0, [];
    }

    /** The observer takes an event that is not the end of a burst. */
    method Observe(id: EventId, name: string, attributes: Attributes)
      requires InOrder(IdsOf(timeline)) && Next(Issue(), id)
      requires Accounted() && !id.PlaybackStop?
      modifies this`timeline
      ensures timeline == old(timeline) + [TimelineEvent(id, name, attributes)]
      ensures InOrder(IdsOf(timeline)) && Issue() == Issuing(old(Issue()), id)
      ensures Accounted()
    {
      var event := TimelineEvent(id, name, attributes);
      IdsAppend(timeline, event);
      InOrderAppend(IdsOf(timeline), id);
      StopsReportMore(timeline, event, written, LastClosed(), LastClosed());
      timeline := timeline + [event];
    }

    method EndCallerSpeech(completionObserved: bool, reason: string)
      requires Valid()
      modifies this`timeline, this`activeSpeech
      ensures Valid() && activeSpeech == None
      ensures OnlySpeech(old(Issue()), Issue())
      ensures timeline == old(timeline) + SpeechEnd(old(activeSpeech), completionObserved, reason)
    {
      assert Expose(0);
      if activeSpeech.None? {
        return;
      }
      Observe(SpeechStop(activeSpeech.value), "provider_input_speech_stopped", SpeechEnded(completionObserved, reason));
      activeSpeech := None;
    }

    /** The open burst, if any, ends and reports what was written in it. */
    method EndAssistantPlayback(reason: string)
      requires Valid()
      modifies this`timeline, this`activePlayback, this`writtenBytes, this`lastPlayedAt
      ensures Valid() && activePlayback == None
      ensures OnlyPlayback(old(Issue()), Issue())
      ensures timeline == old(timeline) + BurstEnd(old(activePlayback), BytesOf(written, playbackSequence), reason)
      ensures old(activePlayback).Some? ==> old(activePlayback) == Some(playbackSequence) && lastPlayedAt == None
      ensures old(activePlayback).None? ==> lastPlayedAt == old(lastPlayedAt)
    {
      assert Expose(0);
      if activePlayback.None? {
        return;
      }
      var event := TimelineEvent(PlaybackStop(activePlayback.value), "assistant_playback_stopped",
                                 WrittenAudio(writtenBytes, reason));
      IdsAppend(timeline, event);
      InOrderAppend(IdsOf(timeline), event.id);
      StopsReportMore(timeline, event, written, LastClosed(), playbackSequence);
      timeline := timeline + [event];
      activePlayback := None;
      writtenBytes := 0;
      lastPlayedAt := None;
    }

    /** Does more than the duration of the last frame lie between its end and `now`? */
    predicate MediaGap(now: int)
      reads this
    {
      lastPlayedAt.Some? && (now - lastPlayedAt.value) * 2 * telephonyRate > lastFrameBytes * 1_000_000
    }

    /** If the last frame took a whole number of microseconds, a gap is a wait of more than that after it was played. */
    lemma MediaGapIs(now: int, duration: nat)
      requires telephonyRate > 0 && lastFrameBytes * 1_000_000 == duration * (2 * telephonyRate)
      ensures MediaGap(now) <==> lastPlayedAt.Some? && now > lastPlayedAt.value + duration
    {
      if lastPlayedAt.Some? {
        var wait, bytesPerSecond := now - lastPlayedAt.value, 2 * telephonyRate;
        assert wait * 2 * telephonyRate == wait * bytesPerSecond;
        if wait > duration {
          assert (wait - duration) * bytesPerSecond > 0;
        } else {
          assert (duration - wait) * bytesPerSecond >= 0;
        }
      }
    }

    /** A gap ends the open burst, which reports what had been written; with none open the next one starts. */
    ghost function Opened(burst: Option<nat>, gap: bool, before: seq<Written>): seq<TimelineEvent>
      reads this`playbackSequence
    {
      if burst.Some? && !gap then []
      else
        (if burst.Some? then BurstEnd(burst, BytesOf(before, burst.value), "media_gap") else [])
        + [TimelineEvent(PlaybackStart(playbackSequence), "assistant_playback_started", NoAttributes)]
    }

    /** A burst is open afterwards: a new one if none was, or if there was a gap, which ends the open one first. */
    method OpenBurst(now: int)
      requires Valid()
      modifies this`timeline, this`activePlayback, this`playbackSequence, this`writtenBytes, this`lastPlayedAt
      ensures Counted() && Accounted() && activePlayback.Some? && OnlyPlayback(old(Issue()), Issue())
      ensures timeline == old(timeline) + Opened(old(activePlayback), old(MediaGap(now)), written)
      ensures playbackSequence == old(playbackSequence) + if old(activePlayback.None? || MediaGap(now)) then 1 else 0
    {
      if activePlayback.Some? && MediaGap(now) {
        EndAssistantPlayback("media_gap");
      }
      assert Expose(0);
      if activePlayback.None? {
        StartBurst();
      }
    }

    /** A frame is reported as started: its bytes count for the burst that is then open. */
    method MarkOutputStarted(frameBytes: nat, ordinal: nat, now: int)
      requires Valid()
      modifies this`timeline, this`activePlayback, this`playbackSequence, this`writtenBytes, this`lastPlayedAt
      modifies this`written
      ensures Valid() && activePlayback.Some? && OnlyPlayback(old(Issue()), Issue()) && old(timeline) <= timeline
      ensures timeline == old(timeline) + Opened(old(activePlayback), old(MediaGap(now)), old(written))
      ensures written == old(written) + [Written(playbackSequence, frameBytes, ordinal)]
      ensures playbackSequence == old(playbackSequence) + if old(activePlayback.None? || MediaGap(now)) then 1 else 0
    {
      OpenBurst(now);
      ghost var entry := Written(playbackSequence, frameBytes, ordinal);
      StopsReportAfterWrite(timeline, written, LastClosed(), entry);
      BytesAppend(written, entry, playbackSequence);
      writtenBytes := writtenBytes + frameBytes;
      written := written + [entry];
    }

    method StartBurst()
      requires Counted() && Accounted() && activePlayback.None?
      modifies this`timeline, this`activePlayback, this`playbackSequence, this`writtenBytes, this`lastPlayedAt
      ensures Counted() && Accounted() && lastPlayedAt == None
      ensures Issue() == old(Issue()).(playback := playbackSequence, open := true)
      ensures playbackSequence == old(playbackSequence) + 1 && activePlayback == Some(playbackSequence)
      ensures timeline == old(timeline)
        + [TimelineEvent(PlaybackStart(playbackSequence), "assistant_playback_started", NoAttributes)]
    {
      NothingYet(written, playbackSequence + 1);
      NumberBurst();
      writtenBytes := 0;
      lastPlayedAt := None;
      assert LastClosed() == old(playbackSequence);
    }

    /** The next burst number is issued with its start event. */
    method NumberBurst()
      requires Counted() && Accounted() && activePlayback.None?
      modifies this`timeline, this`activePlayback, this`playbackSequence
      ensures Counted() && StopsReport(timeline, written, old(playbackSequence))
      ensures Issue() == old(Issue()).(playback := playbackSequence, open := true)
      ensures playbackSequence == old(playbackSequence) + 1 && activePlayback == Some(playbackSequence)
      ensures timeline == old(timeline)
        + [TimelineEvent(PlaybackStart(playbackSequence), "assistant_playback_started", NoAttributes)]
    {
      Observe(PlaybackStart(playbackSequence + 1), "assistant_playback_started", NoAttributes);
      playbackSequence := playbackSequence + 1;
      activePlayback := Some(playbackSequence);
    }

    method MarkOutputPlayed(frameBytes: nat, now: int)
      requires Valid()
      modifies this`lastPlayedAt, this`lastFrameBytes
      ensures Valid()
      ensures activePlayback.Some? ==> lastPlayedAt == Some(now) && lastFrameBytes == frameBytes
      ensures activePlayback.None? ==> lastPlayedAt == old(lastPlayedAt) && lastFrameBytes == old(lastFrameBytes)
    {
      assert Expose(0);
      if activePlayback.Some? {
        lastPlayedAt, lastFrameBytes := Some(now), frameBytes;
      }
    }

    // ---------------------------------------------------------------- interruptions

    /** A new interruption takes the next number and issues its first step. */
    method BeginBargeIn(name: string, callerSpeaks: bool)
      requires Valid() && (callerSpeaks ==> activeSpeech.None?)
      modifies this`timeline, this`bargeSequence, this`activeSpeech
      ensures Valid() && bargeSequence == old(bargeSequence) + 1 && old(timeline) <= timeline
      ensures timeline == old(timeline) + [TimelineEvent(BargeStep(bargeSequence, 1), name, NoAttributes)]
      ensures activeSpeech == if callerSpeaks then Some(bargeSequence) else old(activeSpeech)
      ensures var issue := Issue(); issue.step == 1 && issue.chunk == 0 && issue.frame == 0 && !issue.partial
    {
      assert Expose(0);
      bargeSequence := bargeSequence + 1;
      Observe(BargeStep(bargeSequence, 1), name, NoAttributes);
      if callerSpeaks {
        activeSpeech := Some(bargeSequence);
      }
    }

    /** A caller who starts to speak again ends the speech that was still open. */
    method AnnounceBargeIn(name: string, callerSpeaks: bool)
      requires Valid()
      modifies this`timeline, this`bargeSequence, this`activeSpeech
      ensures Valid() && bargeSequence == old(bargeSequence) + 1 && old(timeline) <= timeline
      ensures timeline == old(timeline)
        + (if callerSpeaks then SpeechEnd(old(activeSpeech), false, "superseded_by_new_start") else [])
        + [TimelineEvent(BargeStep(bargeSequence, 1), name, NoAttributes)]
      ensures activeSpeech == if callerSpeaks then Some(bargeSequence) else old(activeSpeech)
      ensures var issue := Issue(); issue.step == 1 && issue.chunk == 0 && issue.frame == 0 && !issue.partial
    {
      if callerSpeaks {
        EndCallerSpeech(false, "superseded_by_new_start");
      }
      BeginBargeIn(name, callerSpeaks);
    }

    method Step(step: nat, name: string, attributes: Attributes)
      requires Valid() && bargeSequence > 0 && step == Issue().step + 1
      modifies this`timeline
      ensures Valid() && Issue() == old(Issue()).(step := step)
      ensures timeline == old(timeline) + [TimelineEvent(BargeStep(bargeSequence, step), name, attributes)]
    {
      assert Expose(0);
      Observe(BargeStep(bargeSequence, step), name, attributes);
    }

    /** The audio stages report what discontinuities they find; how many is not decided here. */
    method ObserveStages()
      requires Valid()
      modifies this`timeline, this`discontinuities
      ensures Valid() && Issue() == old(Issue()).(discontinuity := discontinuities) && old(timeline) <= timeline
      ensures OnlyDiscontinuities(timeline[|old(timeline)|..])
    {
      assert Expose(0);
      var found: int := *;
      while found > 0
        invariant Valid() && Issue() == old(Issue()).(discontinuity := discontinuities) && old(timeline) <= timeline
        invariant OnlyDiscontinuities(timeline[|old(timeline)|..])
      {
        found := found - 1;
        assert Expose(0);
        Observe(Discontinuity(discontinuities), "stage.pcm_discontinuity_detected", NoAttributes);
        discontinuities := discontinuities + 1;
      }
    }

    method ObserveChunk(chunk: RecentChunk)
      requires Valid() && bargeSequence > 0 && chunk.ordinal > Issue().chunk
      modifies this`timeline
      ensures Valid() && Issue() == old(Issue()).(chunk := chunk.ordinal)
      ensures timeline == old(timeline) + [ChunkEvent(bargeSequence, chunk)]
    {
      assert Expose(0);
      Observe(ChunkEvidence(bargeSequence, chunk.ordinal), "provider_output_audio_chunk_received",
              ChunkReceived(chunk.ordinal));
    }

    method ObserveFrame(frame: Frame)
      requires Valid() && bargeSequence > 0 && frame.ordinal > Issue().frame && frame.window.chunks != []
      modifies this`timeline
      ensures Valid() && Issue() == old(Issue()).(frame := frame.ordinal)
      ensures timeline == old(timeline) + [FrameEvent(bargeSequence, frame)]
    {
      assert Expose(0);
      var chunks := frame.window.chunks;
      Observe(FrameEvidence(bargeSequence, frame.ordinal), "playback_frame_enqueued_before_barge_in",
              FrameDiscarded(frame.ordinal, chunks[0], chunks[|chunks| - 1], |chunks|));
    }

    method ObserveChunks(chunks: seq<RecentChunk>)
      requires Valid() && bargeSequence > 0 && ChunksRise(chunks, Issue().chunk)
      modifies this`timeline
      ensures Valid() && Issue() == old(Issue()).(chunk := Issue().chunk)
      ensures timeline == old(timeline) + ChunkEvents(bargeSequence, chunks)
    {
      for i := 0 to |chunks|
        invariant Valid() && Issue() == old(Issue()).(chunk := Issue().chunk)
        invariant Issue().chunk == if i == 0 then old(Issue()).chunk else chunks[i - 1].ordinal
        invariant Extended(old(timeline), ChunkEvents(bargeSequence, chunks), i, timeline)
      {
        ghost var before := timeline;
        ObserveChunk(chunks[i]);
        ExtendedByOne(old(timeline), ChunkEvents(bargeSequence, chunks), i, before);
      }
    }

    method ObserveFrames(frames: seq<Frame>)
      requires Valid() && bargeSequence > 0 && FramesRise(frames, Issue().frame)
      modifies this`timeline
      ensures Valid() && Issue() == old(Issue()).(frame := Issue().frame)
      ensures timeline == old(timeline) + FrameEvents(bargeSequence, frames)
    {
      for i := 0 to |frames|
        invariant Valid() && Issue() == old(Issue()).(frame := Issue().frame)
        invariant Issue().frame == if i == 0 then old(Issue()).frame else frames[i - 1].ordinal
        invariant Extended(old(timeline), FrameEvents(bargeSequence, frames), i, timeline)
      {
        ghost var before := timeline;
        ObserveFrame(frames[i]);
        ExtendedByOne(old(timeline), FrameEvents(bargeSequence, frames), i, before);
      }
    }

    method ObservePartial(bytes: nat, chunks: seq<nat>)
      requires Valid() && bargeSequence > 0 && !Issue().partial && chunks != []
      modifies this`timeline
      ensures Valid() && Issue() == old(Issue()).(partial := true)
      ensures timeline == old(timeline) + [TimelineEvent(PartialFrame(bargeSequence),
        "playback_partial_frame_buffered_before_barge_in",
        PartialDiscarded(bytes, chunks[0], chunks[|chunks| - 1], |chunks|))]
    {
      assert Expose(0);
      Observe(PartialFrame(bargeSequence), "playback_partial_frame_buffered_before_barge_in",
              PartialDiscarded(bytes, chunks[0], chunks[|chunks| - 1], |chunks|));
    }

    method ObserveRecent(controlAt: int, recentChunks: seq<RecentChunk>)
      requires Valid() && bargeSequence > 0 && Issue().chunk == 0 && ChunksRise(recentChunks, 0)
      modifies this`timeline
      ensures Valid() && Issue() == old(Issue()).(chunk := Issue().chunk)
      ensures timeline == old(timeline)
        + ChunkEvents(bargeSequence, BoundedEvidence(InLookback(recentChunks, controlAt), CHUNK_EVIDENCE_LIMIT))
    {
      LookbackRises(recentChunks, controlAt, 0);
      SampledChunksRise(InLookback(recentChunks, controlAt), 0);
      ObserveChunks(BoundedEvidence(InLookback(recentChunks, controlAt), CHUNK_EVIDENCE_LIMIT));
    }

    method ObserveDiscarded(frames: seq<Frame>, partialBytes: nat, window: Option<Window>)
      requires Valid() && bargeSequence > 0 && Issue().frame == 0 && !Issue().partial
      requires FramesRise(frames, 0) && Windowed(BoundedEvidence(frames, FRAME_EVIDENCE_LIMIT), window)
      modifies this`timeline
      ensures Valid() && Issue() == old(Issue()).(frame := Issue().frame, partial := Issue().partial)
      ensures timeline == old(timeline)
        + (FrameEvents(bargeSequence, BoundedEvidence(frames, FRAME_EVIDENCE_LIMIT))
           + PartialEvents(bargeSequence, partialBytes, window))
    {
      SampledFramesRise(frames, 0);
      var selected := BoundedEvidence(frames, FRAME_EVIDENCE_LIMIT);
      ConcatAssociates(timeline, FrameEvents(bargeSequence, selected), PartialEvents(bargeSequence, partialBytes, window));
      ObserveFrames(selected);
      ObserveRest(partialBytes, window);
    }

    method ObserveRest(partialBytes: nat, window: Option<Window>)
      requires Valid() && bargeSequence > 0 && !Issue().partial && Windowed([], window)
      modifies this`timeline
      ensures Valid() && Issue() == old(Issue()).(partial := Issue().partial)
      ensures timeline == old(timeline) + PartialEvents(bargeSequence, partialBytes, window)
    {
      if partialBytes > 0 && window.Some? {
        ObservePartial(partialBytes, window.value.chunks);
      }
    }

    /**
      The evidence of what an interruption discards: the chunks received shortly before it, the first and
      the last of the frames, and the partial frame; with the totals, whatever was left out.
     */
    method ReportDiscarded(controlAt: int, recentChunks: seq<RecentChunk>, frames: seq<Frame>,
                           partialBytes: nat, window: Option<Window>) returns (attributes: Attributes)
      requires Valid() && bargeSequence > 0
      requires Issue().chunk == 0 && Issue().frame == 0 && !Issue().partial
      requires ChunksRise(recentChunks, 0) && FramesRise(frames, 0)
      requires Windowed(BoundedEvidence(frames, FRAME_EVIDENCE_LIMIT), window)
      modifies this`timeline
      ensures Valid() && Issue().step == old(Issue()).step
      ensures timeline == old(timeline) + Evidence(bargeSequence, controlAt, recentChunks, frames, partialBytes, window)
      ensures attributes == Cleared(frames, partialBytes, window)
    {
      var recent := BoundedEvidence(InLookback(recentChunks, controlAt), CHUNK_EVIDENCE_LIMIT);
      ConcatAssociates(timeline, ChunkEvents(bargeSequence, recent),
                FrameEvents(bargeSequence, BoundedEvidence(frames, FRAME_EVIDENCE_LIMIT))
                + PartialEvents(bargeSequence, partialBytes, window));
      ObserveRecent(controlAt, recentChunks);
      ObserveDiscarded(frames, partialBytes, window);
      attributes := Cleared(frames, partialBytes, window);
    }

    /** All that is observed once the output path has been torn down. */
    method ReportBargeIn(step: nat, path: string, playedMs: Option<int>, controlAt: int, recentChunks: seq<RecentChunk>,
                         frames: seq<Frame>, partialBytes: nat, window: Option<Window>)
      requires Valid() && bargeSequence > 0 && step == Issue().step + 1
      requires Issue().chunk == 0 && Issue().frame == 0 && !Issue().partial
      requires ChunksRise(recentChunks, 0) && FramesRise(frames, 0)
      requires Windowed(BoundedEvidence(frames, FRAME_EVIDENCE_LIMIT), window)
      modifies this`timeline
      ensures Valid()
      ensures timeline == old(timeline)
        + (Evidence(bargeSequence, controlAt, recentChunks, frames, partialBytes, window)
           + LastSteps(bargeSequence, step, Cleared(frames, partialBytes, window), path, playedMs, |frames|))
      ensures Reports(timeline, bargeSequence, step, path, playedMs, frames, window, partialBytes)
    {
      ConcatAssociates(timeline, Evidence(bargeSequence, controlAt, recentChunks, frames, partialBytes, window),
                LastSteps(bargeSequence, step, Cleared(frames, partialBytes, window), path, playedMs, |frames|));
      LastTwo(timeline, Evidence(bargeSequence, controlAt, recentChunks, frames, partialBytes, window),
              LastSteps(bargeSequence, step, Cleared(frames, partialBytes, window), path, playedMs, |frames|));
      var attributes := ReportDiscarded(controlAt, recentChunks, frames, partialBytes, window);
      TakeLastSteps(step, attributes, path, playedMs, |frames|);
    }

    method TakeLastSteps(step: nat, attributes: Attributes, path: string, playedMs: Option<int>, droppedFrames: nat)
      requires Valid() && bargeSequence > 0 && step == Issue().step + 1
      modifies this`timeline
      ensures Valid()
      ensures timeline == old(timeline) + LastSteps(bargeSequence, step, attributes, path, playedMs, droppedFrames)
    {
      Step(step, "playback_queue_cleared", attributes);
      Step(step + 1, "barge_in_completed", Completed(path, playedMs, droppedFrames));
    }
  }
}

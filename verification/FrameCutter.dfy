/**
  Cutting provider audio into frames: the local state of `_produce_provider_audio` and the session fields it
  alone writes.  The call session holds one `FrameCutter`.
 */
module FrameCutting {
  import opened Common
  import opened Pcm16
  import opened Resampler
  import opened PacketSources
  import opened ProviderOutput
  import opened PlaybackQueue
  import opened BridgeState

  const PLAYBACK_FRAMES := 250
  const RECENT_CHUNKS := 256

  /** Each 20 ms frame holds `round(rate * 0.02)` samples of two bytes. */
  function PacketBytes(rate: Rate): nat {
    RoundWithin(rate * 2, 100, 0, rate);
    RoundHalfEven(rate * 2, 100) * 2
  }

  /** Two bytes for each sample, and the number of samples is nearest to that of 20 ms, the even one of two nearest. */
  ghost predicate IsTwentyMs(bytes: nat, rate: Rate) {
    && bytes % 2 == 0
    && var error := 100 * (bytes / 2) - 2 * rate;
       -50 <= error <= 50 && (error == 50 || error == -50 ==> bytes / 2 % 2 == 0)
  }

  lemma PacketIsTwentyMs(rate: Rate)
    ensures IsTwentyMs(PacketBytes(rate), rate)
  {
    RoundHalfEvenNearest(rate * 2, 100);
  }

  /** That determines the size, which is 320 bytes at 8 kHz, and exactly 20 ms at every multiple of 50 Hz. */
  lemma TwentyMsIs(bytes: nat, rate: Rate)
    requires IsTwentyMs(bytes, rate)
    ensures bytes == PacketBytes(rate)
    ensures rate == 8000 ==> bytes == 320
    ensures rate % 50 == 0 ==> 1000 * bytes == 20 * (2 * rate)
  {
    PacketIsTwentyMs(rate);
  }

  ghost predicate HeardIn(history: seq<Frame>, fates: seq<Fate>, position: Position) {
    exists i :: 0 <= i < |fates| && i < |history| && fates[i] == Delivered && history[i].position == Some(position)
  }

  ghost predicate TakenFrom(history: seq<Frame>, fates: seq<Fate>, frame: Frame) {
    exists i :: 0 <= i < |fates| && i < |history| && fates[i] == Delivered && history[i] == frame
  }

  lemma StillHeard(history: seq<Frame>, grown: seq<Frame>, fates: seq<Fate>, longer: seq<Fate>, position: Position)
    requires history <= grown && fates <= longer && HeardIn(history, fates, position)
    ensures HeardIn(grown, longer, position)
  {
    var i :| 0 <= i < |fates| && i < |history| && fates[i] == Delivered && history[i].position == Some(position);
    assert longer[i] == Delivered && grown[i] == history[i];
  }

  lemma StillTaken(history: seq<Frame>, grown: seq<Frame>, fates: seq<Fate>, longer: seq<Fate>, frame: Frame)
    requires history <= grown && fates <= longer && TakenFrom(history, fates, frame)
    ensures TakenFrom(grown, longer, frame)
  {
    var i :| 0 <= i < |fates| && i < |history| && fates[i] == Delivered && history[i] == frame;
    assert longer[i] == Delivered && grown[i] == frame;
  }

  /** A new source goes to the end of the queue when its chunk is later than those of all bytes buffered. */
  lemma SourcesAppend(sources: seq<Source>, source: Source)
    requires WellFormed(sources) && source.remaining > 0
    requires forall k :: 0 <= k < |Expand(sources)| ==> Expand(sources)[k] < source.chunk
    ensures WellFormed(sources + [source])
    ensures Expand(sources + [source]) == Expand(sources) + Repeat(source.chunk, source.remaining)
  {
    forall i | 0 <= i < |sources| ensures sources[i].chunk < source.chunk {
      ExpandHas(sources, sources[i].chunk);
      assert Chunks(sources)[i] == sources[i].chunk;
    }
    ExpandAppend(sources, [source]);
    assert Expand([source]) == Repeat(source.chunk, source.remaining) + Expand([]);
  }

  /** The packet buffer is the rest of the epoch's bytes, and the sources account for each byte in it. */
  ghost predicate IsAccounted(buffer: seq<Byte>, sources: seq<Source>, done: seq<Byte>, bytes: seq<Byte>, origins: seq<nat>) {
    && WellFormed(sources)
    && done + buffer == bytes
    && |done| <= |origins|
    && Expand(sources) == origins[|done|..]
    && |origins| == |bytes|
  }

  ghost predicate Accounted(buffer: seq<Byte>, sources: seq<Source>, done: seq<Byte>, bytes: seq<Byte>, origins: seq<nat>) {
    forall n: nat {:trigger Expose(n)} :: Expose(n) ==> IsAccounted(buffer, sources, done, bytes, origins)
  }

  lemma AccountedMeans(buffer: seq<Byte>, sources: seq<Source>, done: seq<Byte>, bytes: seq<Byte>, origins: seq<nat>)
    requires Accounted(buffer, sources, done, bytes, origins)
    ensures IsAccounted(buffer, sources, done, bytes, origins) && |Expand(sources)| == |buffer|
    ensures sources == [] <==> buffer == []
  {
    assert Expose(0);
    if sources != [] {
      assert Expand(sources) == Repeat(sources[0].chunk, sources[0].remaining) + Expand(sources[1..]);
    }
  }

  lemma NothingReceived(barrier: nat, last: nat)
    requires barrier <= last
    ensures Accounted([], [], [], [], [])
    ensures Since([], [], barrier, last)
  {}

  lemma AccountedAppend(buffer: seq<Byte>, sources: seq<Source>, done: seq<Byte>, bytes: seq<Byte>, origins: seq<nat>,
                        source: Source, more: seq<Byte>)
    requires Accounted(buffer, sources, done, bytes, origins)
    requires source.remaining == |more| > 0
    requires forall k :: 0 <= k < |origins| ==> origins[k] < source.chunk
    ensures Accounted(buffer + more, sources + [source], done, bytes + more, origins + Repeat(source.chunk, |more|))
  {
    assert Expose(0);
    SourcesAppend(sources, source);
  }

  lemma AccountedCut(buffer: seq<Byte>, sources: seq<Source>, done: seq<Byte>, bytes: seq<Byte>, origins: seq<nat>,
                     n: nat, rest: seq<Source>)
    requires IsAccounted(buffer, sources, done, bytes, origins) && |Expand(sources)| == |buffer|
    requires n <= |buffer| && WellFormed(rest) && Expand(rest) == Expand(sources)[n..]
    ensures Accounted(buffer[n..], rest, done + buffer[..n], bytes, origins)
    ensures Expand(sources)[..n] == origins[|done|..|done| + n]
  {
    assert done + buffer == (done + buffer[..n]) + buffer[n..];
  }

  /** Nothing received before the last interruption is behind the epoch. */
  ghost predicate IsSince(epoch: seq<Chunk>, origins: seq<nat>, barrier: nat, last: nat) {
    && barrier <= last
    && AllAbove(origins, barrier) && AllAtMost(origins, last)
    && (forall i :: 0 <= i < |epoch| ==> barrier < epoch[i].ordinal <= last)
  }

  ghost predicate Since(epoch: seq<Chunk>, origins: seq<nat>, barrier: nat, last: nat) {
    forall n: nat {:trigger Expose(n)} :: Expose(n) ==> IsSince(epoch, origins, barrier, last)
  }

  lemma SinceMeans(epoch: seq<Chunk>, origins: seq<nat>, barrier: nat, last: nat)
    requires Since(epoch, origins, barrier, last)
    ensures barrier <= last && AllAbove(origins, barrier) && AllAtMost(origins, last) && EpochAbove(epoch, barrier)
    ensures barrier == last ==> epoch == [] && origins == []
  {
    assert Expose(0);
    assert epoch != [] ==> epoch[0].ordinal > barrier;
    assert origins != [] ==> origins[0] > barrier;
  }

  lemma SinceNext(epoch: seq<Chunk>, origins: seq<nat>, barrier: nat, chunk: Chunk, n: nat)
    requires chunk.ordinal > 0 && Since(epoch, origins, barrier, chunk.ordinal - 1)
    ensures Since(epoch + [chunk], origins + Repeat(chunk.ordinal, n), barrier, chunk.ordinal)
  {
    assert Expose(0);
  }

  ghost predicate IsRising(chunks: seq<RecentChunk>, last: nat) {
    && |chunks| <= RECENT_CHUNKS
    && (forall i :: 0 <= i < |chunks| ==> 0 < chunks[i].ordinal <= last)
    && (forall i, j :: 0 <= i < j < |chunks| ==> chunks[i].ordinal < chunks[j].ordinal)
  }

  ghost predicate Rising(chunks: seq<RecentChunk>, last: nat) {
    forall n: nat {:trigger Expose(n)} :: Expose(n) ==> IsRising(chunks, last)
  }

  lemma RisingMeans(chunks: seq<RecentChunk>, last: nat)
    requires Rising(chunks, last)
    ensures IsRising(chunks, last)
  {
    assert Expose(0);
  }

  function Remembered(chunks: seq<RecentChunk>, chunk: RecentChunk): seq<RecentChunk> {
    var all := chunks + [chunk];
    if |all| > RECENT_CHUNKS then all[1..] else all
  }

  /** The chunk comes last, and of those before it the last 255 are kept. */
  lemma RememberedIs(chunks: seq<RecentChunk>, chunk: RecentChunk)
    requires |chunks| <= 256
    ensures var r := Remembered(chunks, chunk);
            && r[|r| - 1] == chunk
            && r[..|r| - 1] == (if |chunks| == 256 then chunks[1..] else chunks)
  {}

  lemma RememberedRise(chunks: seq<RecentChunk>, last: nat, chunk: RecentChunk)
    requires Rising(chunks, last) && chunk.ordinal == last + 1
    ensures Rising(Remembered(chunks, chunk), last + 1)
  {
    assert Expose(0);
  }

  /** Where a frame comes from: the chunks of its epoch when it was cut, and its place in what they make. */
  datatype Cut = Cut(epoch: seq<Chunk>, at: nat)

  ghost predicate EpochAbove(epoch: seq<Chunk>, barrier: nat) {
    forall i :: 0 <= i < |epoch| ==> epoch[i].ordinal > barrier
  }

  /** The payload and the chunks behind it are what the chunks of the epoch make at that place. */
  ghost predicate CutFrom(payload: seq<Byte>, origins: seq<nat>, cut: Cut, rate: Rate, shape: Shape) {
    var bytes, byteOrigins := Rendered(cut.epoch, rate, shape), Origins(cut.epoch, rate, shape);
    && cut.at + |payload| <= |bytes| && cut.at + |payload| <= |byteOrigins|
    && payload == bytes[cut.at..cut.at + |payload|]
    && origins == byteOrigins[cut.at..cut.at + |payload|]
  }

  /** Every frame comes from its epoch, and those put since the last interruption from chunks received since. */
  ghost predicate IsTraced(history: seq<Frame>, frameOrigins: seq<seq<nat>>, cuts: seq<Cut>, rate: Rate, shape: Shape,
                           drainedAt: nat, barrier: nat)
  {
    && |history| == |frameOrigins| == |cuts|
    && (forall i :: 0 <= i < |history| ==> CutFrom(history[i].payload, frameOrigins[i], cuts[i], rate, shape))
    && (forall i :: drainedAt <= i < |history| ==>
          AllAbove(frameOrigins[i], barrier) && EpochAbove(cuts[i].epoch, barrier))
  }

  ghost predicate Traced(history: seq<Frame>, frameOrigins: seq<seq<nat>>, cuts: seq<Cut>, rate: Rate, shape: Shape,
                         drainedAt: nat, barrier: nat)
  {
    forall n: nat {:trigger Expose(n)} ::
      Expose(n) ==> IsTraced(history, frameOrigins, cuts, rate, shape, drainedAt, barrier)
  }

  lemma TracedMeans(history: seq<Frame>, frameOrigins: seq<seq<nat>>, cuts: seq<Cut>, rate: Rate, shape: Shape,
                    drainedAt: nat, barrier: nat, i: nat)
    requires Traced(history, frameOrigins, cuts, rate, shape, drainedAt, barrier) && i < |history|
    ensures |history| == |frameOrigins| == |cuts| && CutFrom(history[i].payload, frameOrigins[i], cuts[i], rate, shape)
    ensures drainedAt <= i ==> AllAbove(frameOrigins[i], barrier) && EpochAbove(cuts[i].epoch, barrier)
  {
    assert Expose(0);
  }

  lemma TracedAppend(history: seq<Frame>, frameOrigins: seq<seq<nat>>, cuts: seq<Cut>, rate: Rate, shape: Shape,
                     drainedAt: nat, barrier: nat, frame: Frame, origins: seq<nat>, cut: Cut)
    requires Traced(history, frameOrigins, cuts, rate, shape, drainedAt, barrier)
    requires CutFrom(frame.payload, origins, cut, rate, shape)
    requires AllAbove(origins, barrier) && EpochAbove(cut.epoch, barrier)
    ensures Traced(history + [frame], frameOrigins + [origins], cuts + [cut], rate, shape, drainedAt, barrier)
  {
    assert Expose(0);
  }

  /** An interruption asks nothing new of the frames there are. */
  lemma TracedDrain(history: seq<Frame>, frameOrigins: seq<seq<nat>>, cuts: seq<Cut>, rate: Rate, shape: Shape,
                    drainedAt: nat, barrier: nat, next: nat)
    requires Traced(history, frameOrigins, cuts, rate, shape, drainedAt, barrier)
    ensures Traced(history, frameOrigins, cuts, rate, shape, |history|, next) && |frameOrigins| == |history|
  {
    assert Expose(0);
  }

  /** The bytes in hand are the next ones that the epoch makes. */
  lemma InHandIsCut(framed: seq<Byte>, inHand: seq<Byte>, rest: seq<Byte>, sources: seq<Source>, epoch: seq<Chunk>,
                    rate: Rate, shape: Shape, bytes: seq<Byte>, origins: seq<nat>, carry: Option<Carry>)
    requires Accounted(rest, sources, framed + inHand, bytes, origins)
    requires Renders(epoch, rate, shape, bytes, origins, carry)
    ensures |framed| + |inHand| <= |origins|
    ensures CutFrom(inHand, origins[|framed|..|framed| + |inHand|], Cut(epoch, |framed|), rate, shape)
  {
    AccountedMeans(rest, sources, framed + inHand, bytes, origins);
    RendersMeans(epoch, rate, shape, bytes, origins, carry);
    assert inHand == ((framed + inHand) + rest)[|framed|..|framed| + |inHand|];
  }

  /** A frame dropped since the last interruption was pushed out by the one a whole queue behind it. */
  ghost predicate IsPushedOut(fates: seq<Fate>, drainedAt: nat, put: nat) {
    forall i :: drainedAt <= i < |fates| && fates[i] == Dropped ==> i + PLAYBACK_FRAMES < put
  }

  ghost predicate PushedOut(fates: seq<Fate>, drainedAt: nat, put: nat) {
    forall n: nat {:trigger Expose(n)} :: Expose(n) ==> IsPushedOut(fates, drainedAt, put)
  }

  lemma PushedOutMeans(fates: seq<Fate>, drainedAt: nat, put: nat)
    requires PushedOut(fates, drainedAt, put)
    ensures IsPushedOut(fates, drainedAt, put)
  {
    assert Expose(0);
  }

  lemma PushedOutTake(fates: seq<Fate>, drainedAt: nat, put: nat)
    requires PushedOut(fates, drainedAt, put)
    ensures PushedOut(fates + [Delivered], drainedAt, put)
  {
    assert Expose(0);
  }

  lemma PushedOutPut(fates: seq<Fate>, drainedAt: nat, put: nat, dropped: nat)
    requires PushedOut(fates, drainedAt, put) && |fates| <= put
    requires dropped == if put - |fates| == PLAYBACK_FRAMES then 1 else 0
    ensures PushedOut(fates + seq(dropped, _ => Dropped), drainedAt, put + 1)
  {
    assert Expose(0);
  }

  lemma PushedOutDrain(fates: seq<Fate>)
    ensures PushedOut(fates, |fates|, |fates|)
  {}

  lemma NamedAreAbove(frame: Frame, origins: seq<nat>, packetBytes: nat, barrier: nat)
    requires FrameOk(frame, origins, packetBytes) && AllAbove(origins, barrier)
    ensures frame.window.chunks != []
    ensures forall chunk :: chunk in frame.window.chunks ==> chunk > barrier
  {
    assert origins[0] in frame.window.chunks;
  }

  /** What a chunk adds to the sources: its ordinal, its receipt time and its bytes, unless there are none. */
  ghost function ReceivedAs(ordinal: nat, at: int, bytes: nat): seq<Source> {
    if bytes == 0 then [] else [Source(ordinal, at, bytes)]
  }

  class FrameCutter {
    const telephonyRate: Rate
    const shape: Shape
    const packetBytes: nat
    const playback: PlaybackBuffer<Frame>

    var packetBuffer: seq<Byte>
    var packetSources: seq<Source>
    var outputResampler: Option<Carry>       // the resampler in use: its rate and its two fields
    var currentItem: Option<Item>
    var lastEnqueuedPosition: Option<Position>
    var chunkOrdinal: nat
    var frameOrdinal: nat
    var recentChunks: seq<RecentChunk>
    var outputFramesDropped: nat             // total of the metric of that name

    ghost var epoch: seq<Chunk>              // chunks received since the last reset
    ghost var bytes: seq<Byte>               // what is made of them
    ghost var byteOrigins: seq<nat>          // the chunk behind each of those bytes
    ghost var framed: seq<Byte>              // their bytes that are in frames
    ghost var inHand: seq<Byte>              // those of a frame cut but not put yet
    ghost var epochStart: nat                // how many frames had been put before the last reset
    ghost var frameOrigins: seq<seq<nat>>    // the chunk behind every byte of every frame
    ghost var cuts: seq<Cut>                 // where every frame comes from
    ghost var barrier: nat                   // the last chunk received before the last interruption
    ghost var drainedAt: nat                 // how many frames had been put by then

    /** The bytes are those that the chunks of the epoch make, and the resampler holds what they left in it. */
    ghost predicate Rendering()
      reads this`epoch, this`bytes, this`byteOrigins, this`outputResampler
    {
      Renders(epoch, telephonyRate, shape, bytes, byteOrigins, outputResampler)
    }

    ghost predicate Buffered()
      reads this`packetBuffer, this`packetSources, this`bytes, this`byteOrigins, this`framed, this`inHand
    {
      Accounted(packetBuffer, packetSources, framed + inHand, bytes, byteOrigins)
    }

    ghost predicate Recent()
      reads this`epoch, this`byteOrigins, this`barrier, this`chunkOrdinal
    {
      Since(epoch, byteOrigins, barrier, chunkOrdinal)
    }

    ghost predicate Recalled()
      reads this`chunkOrdinal, this`recentChunks
    {
      Rising(recentChunks, chunkOrdinal)
    }

    /** The frames put since the last reset are the first bytes of the epoch, cut into whole frames of 20 ms. */
    ghost predicate Queued()
      reads this`byteOrigins, this`framed, this`epochStart, this`frameOrigins, this`currentItem, playback`history
    {
      && IsTwentyMs(packetBytes, telephonyRate)
      && |framed| <= |byteOrigins|
      && Framed(playback.history, frameOrigins, epochStart, framed, byteOrigins[..|framed|], currentItem, packetBytes)
    }

    lemma FrameAt(i: nat)
      requires Queued() && i < |playback.history|
      ensures |frameOrigins| == |playback.history|
      ensures FrameOk(playback.history[i], frameOrigins[i], packetBytes) && playback.history[i].ordinal == i + 1
    {
      FramedAt(playback.history, frameOrigins, epochStart, framed, byteOrigins[..|framed|], currentItem, packetBytes, i);
    }

    ghost predicate Fenced()
      reads this`frameOrigins, this`cuts, this`barrier, this`drainedAt, playback
    {
      && playback.Valid() && playback.maxFrames == PLAYBACK_FRAMES
      && drainedAt <= |playback.fates|
      && PushedOut(playback.fates, drainedAt, |playback.history|)
      && Traced(playback.history, frameOrigins, cuts, telephonyRate, shape, drainedAt, barrier)
    }

    /** The next frame is numbered, and the position of the last one is that of its place in the item. */
    ghost predicate Numbered()
      reads this`frameOrdinal, this`lastEnqueuedPosition, this`epochStart, this`currentItem, this`inHand
      reads playback`history
    {
      var cut := |playback.history| + if inHand == [] then 0 else 1;
      && frameOrdinal == cut
      && epochStart <= |playback.history|
      && lastEnqueuedPosition == (if cut > epochStart then PositionOf(currentItem, cut - epochStart) else None)
    }

    /** Every frame counted as dropped was dropped, and the other way round. */
    ghost predicate Metered()
      reads this`outputFramesDropped, playback`fates
    {
      outputFramesDropped == Tally(playback.fates, Dropped)
    }

    ghost predicate Valid()
      reads this, playback
    {
      Buffered() && Recent() && Recalled() && Queued() && Fenced() && Numbered()
    }

    ghost predicate InHand(frame: Frame)
      reads this, playback`history
    {
      && inHand == frame.payload
      && |framed| + |inHand| <= |byteOrigins|
      && FrameOk(frame, byteOrigins[|framed|..|framed| + |inHand|], packetBytes)
      && frame.ordinal == |playback.history| + 1
      && epochStart <= |playback.history|
      && frame.position == PositionOf(currentItem, |playback.history| - epochStart + 1)
    }

    constructor (telephonyRate: Rate, shape: Shape)
      ensures Valid() && Rendering() && Metered() && fresh(playback) && inHand == [] && outputResampler == None
      ensures playback.history == [] && playback.fates == [] && playback.frames == [] && !playback.closed
      ensures chunkOrdinal == 0 && drainedAt == 0 && packetBuffer == []
      ensures this.telephonyRate == telephonyRate && this.shape == shape && packetBytes == PacketBytes(telephonyRate)
    {
      this.telephonyRate, this.shape := telephonyRate, shape;
      packetBytes := PacketBytes(telephonyRate);
      playback := new PlaybackBuffer<Frame>(PLAYBACK_FRAMES);
      packetBuffer, packetSources, outputResampler, currentItem, lastEnqueuedPosition := [], [], None, None, None;
      chunkOrdinal, frameOrdinal, recentChunks, outputFramesDropped := 0, 0, [], 0;
      epoch, bytes, byteOrigins, framed, inHand := [], [], [], [], [];
      epochStart, frameOrigins, cuts, barrier, drainedAt := 0, [], [], 0, 0;
      PacketIsTwentyMs(telephonyRate);
      NothingFramed(PacketBytes(telephonyRate));
      NothingReceived(0, 0);
      NothingRenders(telephonyRate, shape);
    }

    // ---------------------------------------------------------------- receiving a chunk

    /** Forget everything buffered; what comes next starts from nothing. */
    method Reset(item: Option<Item>)
      requires Queued() && inHand == [] && barrier <= chunkOrdinal && frameOrdinal == |playback.history|
      modifies this`packetBuffer, this`packetSources, this`outputResampler, this`currentItem
      modifies this`lastEnqueuedPosition, this`epoch, this`bytes, this`byteOrigins, this`framed, this`epochStart
      ensures Buffered() && Recent() && Queued() && Numbered() && Rendering()
      ensures packetBuffer == [] && packetSources == [] && outputResampler == None && currentItem == item
      ensures epoch == [] && byteOrigins == [] && epochStart == |playback.history|
    {
      FramedReset(playback.history, frameOrigins, epochStart, framed, byteOrigins[..|framed|], currentItem,
                  packetBytes, item);
      NothingReceived(barrier, chunkOrdinal);
      NothingRenders(telephonyRate, shape);
      Forget(item);
      assert framed + inHand == [] && byteOrigins[..|framed|] == [];
    }

    method Forget(item: Option<Item>)
      modifies this`packetBuffer, this`packetSources, this`outputResampler, this`currentItem
      modifies this`lastEnqueuedPosition, this`epoch, this`bytes, this`byteOrigins, this`framed, this`epochStart
      ensures packetBuffer == [] && packetSources == [] && outputResampler == None && currentItem == item
      ensures lastEnqueuedPosition == None && epoch == [] && bytes == [] && byteOrigins == [] && framed == []
      ensures epochStart == |playback.history|
    {
      packetBuffer, packetSources, outputResampler, currentItem, lastEnqueuedPosition := [], [], None, item, None;
      epoch, bytes, byteOrigins, framed, epochStart := [], [], [], [], |playback.history|;
    }

    /** The chunk is checked, numbered and remembered. */
    method Admit(audio: Message) returns (error: Option<string>)
      requires audio.ProviderAudio? && Recent() && Recalled()
      modifies this`chunkOrdinal, this`recentChunks
      ensures Recent() && Recalled()
      ensures error.None? <==>
        audio.encoding == "pcm16" && audio.channels == 1 && audio.sampleRate != 0 && |audio.pcm| % 2 == 0
      ensures audio.encoding != "pcm16" || audio.channels != 1 ==>
        error == Some("provider output must be mono pcm16") && chunkOrdinal == old(chunkOrdinal)
      ensures audio.encoding == "pcm16" && audio.channels == 1 ==>
        && chunkOrdinal == old(chunkOrdinal) + 1
        && (audio.sampleRate == 0 ==> error == Some("division by zero"))
        && (audio.sampleRate != 0 && |audio.pcm| % 2 != 0 ==>
              error == Some("PCM16LE data length must be divisible by two"))
      ensures error.None? ==> chunkOrdinal == old(chunkOrdinal) + 1
      ensures error.None? ==> Since(epoch, byteOrigins, barrier, chunkOrdinal - 1)
      ensures error.None? ==> recentChunks == Remembered(old(recentChunks), RecentChunk(chunkOrdinal, audio.at))
    {
      if audio.encoding != "pcm16" || audio.channels != 1 {
        return Some("provider output must be mono pcm16");
      }
      chunkOrdinal := chunkOrdinal + 1;
      if audio.sampleRate == 0 {
        return Some("division by zero");
      }
      if |audio.pcm| % 2 != 0 {
        return Some("PCM16LE data length must be divisible by two");
      }
      RememberedRise(recentChunks, chunkOrdinal - 1, RecentChunk(chunkOrdinal, audio.at));
      recentChunks := Remembered(recentChunks, RecentChunk(chunkOrdinal, audio.at));
      return None;
    }

    /**
      An admitted chunk goes through the resampler, the gain and the limiter.  The resampler stays in use for
      the same rate; another rate starts a new one.
     */
    method Resample(pcm: seq<Byte>, sampleRate: int) returns (result: Result<seq<Byte>>)
      requires Rendering() && |pcm| % 2 == 0
      modifies this`outputResampler, this`epoch, this`bytes, this`byteOrigins
      ensures Rendering()
      ensures result.Err? <==> sampleRate <= 0 && (old(outputResampler).None? || old(outputResampler).value.rate != sampleRate)
      ensures result.Err? ==> result.error == "sample rates must be positive"
      ensures result.Err? ==> epoch == old(epoch) && bytes == old(bytes) && byteOrigins == old(byteOrigins)
      ensures result.Ok? ==>
        && sampleRate > 0
        && epoch == old(epoch) + [Chunk(chunkOrdinal, Unpack(pcm), sampleRate)]
        && bytes == old(bytes) + result.value
        && byteOrigins == old(byteOrigins) + Repeat(chunkOrdinal, |result.value|)
    {
      if sampleRate <= 0 && (outputResampler.None? || outputResampler.value.rate != sampleRate) {
        return Err("sample rates must be positive");
      }
      var (state, resampled) := Processed(StateFor(outputResampler, sampleRate), Unpack(pcm), sampleRate, telephonyRate);
      var limited := if resampled == [] then [] else shape(Pack(resampled));
      RendersNext(epoch, telephonyRate, shape, bytes, byteOrigins, outputResampler,
                  Chunk(chunkOrdinal, Unpack(pcm), sampleRate), limited);
      outputResampler := Some(Carry(sampleRate, state));
      epoch, bytes := epoch + [Chunk(chunkOrdinal, Unpack(pcm), sampleRate)], bytes + limited;
      byteOrigins := byteOrigins + Repeat(chunkOrdinal, |limited|);
      return Ok(limited);
    }

    /** Its bytes go to the end of the packet buffer, on the account of the chunk. */
    method Append(limited: seq<Byte>, at: int, ghost bytesBefore: seq<Byte>, ghost originsBefore: seq<nat>)
      requires Accounted(packetBuffer, packetSources, framed + inHand, bytesBefore, originsBefore)
      requires chunkOrdinal > 0 && AllAtMost(originsBefore, chunkOrdinal - 1)
      requires bytes == bytesBefore + limited && byteOrigins == originsBefore + Repeat(chunkOrdinal, |limited|)
      modifies this`packetBuffer, this`packetSources
      ensures Buffered()
      ensures packetBuffer == old(packetBuffer) + limited
      ensures packetSources == old(packetSources) + if limited == [] then [] else [Source(chunkOrdinal, at, |limited|)]
    {
      if limited == [] {
        return;
      }
      AccountedAppend(packetBuffer, packetSources, framed + inHand, bytesBefore, originsBefore,
                      Source(chunkOrdinal, at, |limited|), limited);
      packetBuffer := packetBuffer + limited;
      packetSources := packetSources + [Source(chunkOrdinal, at, |limited|)];
    }

    lemma StillQueued(originsBefore: seq<nat>)
      requires IsTwentyMs(packetBytes, telephonyRate) && |framed| <= |originsBefore| && originsBefore <= byteOrigins
      requires Framed(playback.history, frameOrigins, epochStart, framed, originsBefore[..|framed|], currentItem, packetBytes)
      ensures Queued()
    {
      assert byteOrigins[..|framed|] == originsBefore[..|framed|];
    }

    /** An admitted chunk ends up, resampled and shaped, at the end of the packet buffer. */
    method Receive(pcm: seq<Byte>, sampleRate: int, at: int) returns (result: Result<nat>)
      requires Rendering() && Buffered() && Queued() && inHand == [] && |pcm| % 2 == 0
      requires chunkOrdinal > 0 && Since(epoch, byteOrigins, barrier, chunkOrdinal - 1)
      modifies this`outputResampler, this`epoch, this`bytes, this`byteOrigins
      modifies this`packetBuffer, this`packetSources
      ensures Rendering() && Buffered() && Queued() && Recent()
      ensures result.Ok? <==> sampleRate > 0
      ensures result.Err? ==> epoch == old(epoch) && packetBuffer == old(packetBuffer)
      ensures result.Ok? ==>
        && epoch == old(epoch) + [Chunk(chunkOrdinal, Unpack(pcm), sampleRate)]
        && old(packetBuffer) <= packetBuffer && result.value == |packetBuffer| - |old(packetBuffer)|
        && packetSources == old(packetSources) + ReceivedAs(chunkOrdinal, at, result.value)
    {
      ghost var bytesBefore, originsBefore := bytes, byteOrigins;
      var limited := Resample(pcm, sampleRate);
      if limited.Err? {
        return Err(limited.error);
      }
      SinceMeans(old(epoch), originsBefore, barrier, chunkOrdinal - 1);
      SinceNext(old(epoch), originsBefore, barrier, Chunk(chunkOrdinal, Unpack(pcm), sampleRate), |limited.value|);
      StillQueued(originsBefore);
      Append(limited.value, at, bytesBefore, originsBefore);
      return Ok(|limited.value|);
    }

    method ChangeItem(item: Option<Item>)
      requires Rendering() && Buffered() && Queued() && Numbered() && inHand == []
      requires chunkOrdinal > 0 && Since(epoch, byteOrigins, barrier, chunkOrdinal - 1)
      modifies this`outputResampler, this`epoch, this`bytes, this`byteOrigins, this`packetBuffer, this`packetSources
      modifies this`currentItem, this`lastEnqueuedPosition, this`framed, this`epochStart
      ensures Rendering() && Buffered() && Queued() && Numbered() && currentItem == item
      ensures Since(epoch, byteOrigins, barrier, chunkOrdinal - 1)
      ensures epoch == if item == old(currentItem) then old(epoch) else []
      ensures packetBuffer == if item == old(currentItem) then old(packetBuffer) else []
      ensures packetSources == if item == old(currentItem) then old(packetSources) else []
      ensures epochStart == if item == old(currentItem) then old(epochStart) else |playback.history|
    {
      SinceMeans(epoch, byteOrigins, barrier, chunkOrdinal - 1);
      if item != currentItem {
        NothingReceived(barrier, chunkOrdinal - 1);
        Reset(item);
        assert byteOrigins == [];
      }
    }

    /** A new item resets the output path before its first chunk is received. */
    method ReceiveItem(item: Option<Item>, pcm: seq<Byte>, sampleRate: int, at: int) returns (result: Result<nat>)
      requires Rendering() && Buffered() && Queued() && Numbered() && inHand == [] && |pcm| % 2 == 0
      requires chunkOrdinal > 0 && Since(epoch, byteOrigins, barrier, chunkOrdinal - 1)
      modifies this`outputResampler, this`epoch, this`bytes, this`byteOrigins, this`packetBuffer, this`packetSources
      modifies this`currentItem, this`lastEnqueuedPosition, this`framed, this`epochStart
      ensures Rendering() && Buffered() && Queued() && Recent() && Numbered() && currentItem == item
      ensures epochStart == if item == old(currentItem) then old(epochStart) else |playback.history|
      ensures result.Ok? <==> sampleRate > 0
      ensures |packetBuffer| <= |old(packetBuffer)| + if result.Ok? then result.value else 0
      ensures result.Ok? ==>
        packetSources == (if item == old(currentItem) then old(packetSources) else [])
                       + ReceivedAs(chunkOrdinal, at, result.value)
      ensures result.Ok? ==>
        epoch == (if item == old(currentItem) then old(epoch) else []) + [Chunk(chunkOrdinal, Unpack(pcm), sampleRate)]
    {
      ChangeItem(item);
      result := Receive(pcm, sampleRate, at);
    }

    /** What one message of provider audio does before its frames are cut. */
    method ReceiveAudio(audio: Message) returns (result: Result<nat>)
      requires audio.ProviderAudio?
      requires Rendering() && Buffered() && Queued() && Recent() && Recalled() && Numbered() && inHand == []
      modifies this`outputResampler, this`epoch, this`bytes, this`byteOrigins, this`packetBuffer, this`packetSources
      modifies this`currentItem, this`lastEnqueuedPosition, this`framed, this`epochStart
      modifies this`chunkOrdinal, this`recentChunks
      ensures Rendering() && Buffered() && Queued() && Recent() && Recalled() && Numbered()
      ensures result.Ok? <==> Usable(audio)
      ensures result.Ok? ==> currentItem == audio.item
      ensures result.Ok? ==> epochStart == if audio.item == old(currentItem) then old(epochStart) else |playback.history|
      ensures |packetBuffer| <= |old(packetBuffer)| + if result.Ok? then result.value else 0
      ensures result.Ok? ==> chunkOrdinal == old(chunkOrdinal) + 1
      ensures result.Ok? ==>
        packetSources == (if audio.item == old(currentItem) then old(packetSources) else [])
                       + ReceivedAs(chunkOrdinal, audio.at, result.value)
      ensures result.Ok? ==>
        epoch == (if audio.item == old(currentItem) then old(epoch) else [])
               + [Chunk(chunkOrdinal, Unpack(audio.pcm), audio.sampleRate)]
    {
      var error := Admit(audio);
      if error.Some? {
        return Err(error.value);
      }
      result := ReceiveItem(audio.item, audio.pcm, audio.sampleRate, audio.at);
    }

    // ---------------------------------------------------------------- cutting a frame

    /** 20 ms after the last frame of the same item, or 20 ms into a new one. */
    method NextPlaybackPosition() returns (position: Position)
      requires currentItem.Some?
      modifies this`lastEnqueuedPosition
      ensures position.item == currentItem.value && lastEnqueuedPosition == Some(position)
      ensures position.audioEndMs == 20 +
        if old(lastEnqueuedPosition).Some? && old(lastEnqueuedPosition).value.item == currentItem.value
        then old(lastEnqueuedPosition).value.audioEndMs else 0
    {
      var audioEndMs := 0;
      if lastEnqueuedPosition.Some? && lastEnqueuedPosition.value.item == currentItem.value {
        audioEndMs := lastEnqueuedPosition.value.audioEndMs;
      }
      position := Position(currentItem.value, audioEndMs + 20);
      lastEnqueuedPosition := Some(position);
    }

    /** The first bytes of the packet buffer, with the window of exactly the chunks they came from. */
    method TakePayload() returns (result: Result<(seq<Byte>, Window)>)
      requires Buffered() && inHand == [] && packetBytes <= |packetBuffer|
      modifies this`packetBuffer, this`packetSources, this`inHand
      ensures Buffered()
      ensures packetBytes == 0 ==>
        result == Err("byte_count must be positive") && inHand == [] && packetBuffer == old(packetBuffer)
      ensures packetBytes > 0 ==>
        && result.Ok?
        && inHand == result.value.0 == old(packetBuffer)[..packetBytes] && packetBuffer == old(packetBuffer)[packetBytes..]
        && |framed| + packetBytes <= |byteOrigins|
        && Names(result.value.1, byteOrigins[|framed|..|framed| + packetBytes])
        && Dated(result.value.1, old(packetSources))
    {
      var payload := packetBuffer[..packetBytes];
      AccountedMeans(packetBuffer, packetSources, framed + inHand, bytes, byteOrigins);
      var window, rest := Consume(packetSources, packetBytes);
      if window.Err? {
        return Err(window.error);
      }
      AccountedCut(packetBuffer, packetSources, framed + inHand, bytes, byteOrigins, packetBytes, rest);
      assert framed + inHand == framed && (framed + inHand) + payload == framed + payload;
      packetBuffer := packetBuffer[packetBytes..];
      packetSources := rest;
      inHand := payload;
      return Ok((payload, window.value));
    }

    method CutFrame(now: int) returns (result: Result<Frame>)
      requires Buffered() && Numbered() && inHand == [] && packetBytes <= |packetBuffer|
      modifies this`packetBuffer, this`packetSources, this`inHand, this`lastEnqueuedPosition, this`frameOrdinal
      ensures Buffered() && Numbered()
      ensures packetBytes == 0 ==> result.Err? && inHand == []
      ensures packetBytes > 0 ==> result.Ok? && InHand(result.value) && |packetBuffer| == |old(packetBuffer)| - packetBytes
      ensures packetBytes > 0 ==> result.value.enqueuedAt == now && Dated(result.value.window, old(packetSources))
    {
      var taken := TakePayload();
      if taken.Err? {
        return Err(taken.error);
      }
      var position := None;
      if currentItem.Some? {
        var next := NextPlaybackPosition();
        position := Some(next);
      }
      frameOrdinal := frameOrdinal + 1;
      return Ok(Frame(taken.value.0, position, frameOrdinal, taken.value.1, now));
    }

    /** The chunks behind the bytes in hand. */
    ghost function Behind(frame: Frame): seq<nat>
      reads this`framed, this`inHand, this`byteOrigins
      requires |framed| + |inHand| <= |byteOrigins|
    {
      byteOrigins[|framed|..|framed| + |inHand|]
    }

    lemma NextIsFramed(frame: Frame)
      requires InHand(frame) && Queued()
      ensures Framed(playback.history + [frame], frameOrigins + [Behind(frame)], epochStart, framed + inHand,
                     byteOrigins[..|framed + inHand|], currentItem, packetBytes)
    {
      FramedAppend(playback.history, frameOrigins, epochStart, framed, byteOrigins[..|framed|], currentItem, packetBytes,
                   frame, Behind(frame));
      assert byteOrigins[..|framed|] + Behind(frame) == byteOrigins[..|framed + inHand|];
    }

    lemma NextIsTraced(frame: Frame)
      requires InHand(frame) && Buffered() && Recent() && Fenced() && Rendering()
      ensures Traced(playback.history + [frame], frameOrigins + [Behind(frame)], cuts + [Cut(epoch, |framed|)],
                     telephonyRate, shape, drainedAt, barrier)
    {
      SinceMeans(epoch, byteOrigins, barrier, chunkOrdinal);
      InHandIsCut(framed, inHand, packetBuffer, packetSources, epoch, telephonyRate, shape, bytes, byteOrigins,
                  outputResampler);
      TracedAppend(playback.history, frameOrigins, cuts, telephonyRate, shape, drainedAt, barrier, frame, Behind(frame),
                   Cut(epoch, |framed|));
    }

    method PushFrame(frame: Frame) returns (dropped: nat)
      requires playback.Valid() && playback.maxFrames == PLAYBACK_FRAMES
      requires PushedOut(playback.fates, drainedAt, |playback.history|)
      modifies playback`frames, playback`history, playback`fates
      ensures playback.Valid() && playback.history == old(playback.history) + [frame]
      ensures PushedOut(playback.fates, drainedAt, |playback.history|)
      ensures playback.fates == old(playback.fates) + seq(dropped, _ => Dropped)
      ensures dropped == if |old(playback.frames)| == PLAYBACK_FRAMES then 1 else 0
    {
      PushedOutPut(playback.fates, drainedAt, |playback.history|,
                   if |playback.frames| == PLAYBACK_FRAMES then 1 else 0);
      var result := playback.Put(frame);
      return result.value;
    }

    method PutFrame(frame: Frame) returns (dropped: nat)
      requires InHand(frame) && Buffered() && Recent() && Queued() && Fenced() && Rendering()
      modifies this`framed, this`inHand, this`frameOrigins, this`cuts
      modifies playback`frames, playback`history, playback`fates
      ensures Buffered() && Queued() && Fenced() && inHand == []
      ensures playback.history == old(playback.history) + [frame] && old(frameOrigins) <= frameOrigins
      ensures playback.fates == old(playback.fates) + seq(dropped, _ => Dropped)
      ensures dropped == if |old(playback.frames)| == PLAYBACK_FRAMES then 1 else 0
    {
      NextIsFramed(frame);
      NextIsTraced(frame);
      ghost var origins, cut, done := Behind(frame), Cut(epoch, |framed|), framed + inHand;
      dropped := PushFrame(frame);
      NotePut(origins, cut, done);
    }

    /** The frame last put is on record, and no longer in hand. */
    ghost method NotePut(origins: seq<nat>, cut: Cut, done: seq<Byte>)
      requires playback.Valid() && playback.maxFrames == PLAYBACK_FRAMES && drainedAt <= |playback.fates|
      requires PushedOut(playback.fates, drainedAt, |playback.history|) && IsTwentyMs(packetBytes, telephonyRate)
      requires |done| <= |byteOrigins| && Accounted(packetBuffer, packetSources, done, bytes, byteOrigins)
      requires Framed(playback.history, frameOrigins + [origins], epochStart, done, byteOrigins[..|done|], currentItem,
                      packetBytes)
      requires Traced(playback.history, frameOrigins + [origins], cuts + [cut], telephonyRate, shape, drainedAt, barrier)
      modifies this`framed, this`inHand, this`frameOrigins, this`cuts
      ensures Buffered() && Queued() && Fenced() && inHand == [] && frameOrigins == old(frameOrigins) + [origins]
    {
      assert done + [] == done;
      frameOrigins, cuts := frameOrigins + [origins], cuts + [cut];
      framed, inHand := done, [];
    }

    /** The frame in hand goes into the queue; if that pushes one out, the metric counts it. */
    method Enqueue(frame: Frame)
      requires InHand(frame) && Buffered() && Recent() && Queued() && Fenced() && Numbered() && Metered() && Rendering()
      modifies this`framed, this`inHand, this`frameOrigins, this`cuts, this`outputFramesDropped
      modifies playback`frames, playback`history, playback`fates
      ensures Buffered() && Queued() && Fenced() && Numbered() && Metered() && inHand == []
      ensures playback.history == old(playback.history) + [frame] && old(playback.fates) <= playback.fates
      ensures old(frameOrigins) <= frameOrigins
      ensures outputFramesDropped == old(outputFramesDropped) + if |old(playback.frames)| == PLAYBACK_FRAMES then 1 else 0
    {
      ghost var fates := playback.fates;
      var dropped := PutFrame(frame);
      PlacesAppend(fates, seq(dropped, _ => Dropped), Dropped);
      if dropped > 0 {
        outputFramesDropped := outputFramesDropped + 1;
      }
    }

    // ---------------------------------------------------------------- taking frames out

    /** What `receive_audio` yields: only audio of chunks received after the last interruption. */
    method TakeFrame() returns (frame: Option<Frame>)
      requires Queued() && Fenced()
      requires playback.frames != [] || playback.closed
      modifies playback`frames, playback`fates
      ensures Fenced()
      ensures frame == if old(playback.frames) != [] then Some(old(playback.frames)[0]) else None
      ensures frame.None? ==> playback.fates == old(playback.fates)
      ensures frame.Some? ==>
        && playback.fates == old(playback.fates) + [Delivered]
        && drainedAt <= |old(playback.fates)| < |playback.history|
        && frame.value == playback.history[|old(playback.fates)|]
        && TakenFrom(playback.history, playback.fates, frame.value)
        && frame.value.ordinal == |playback.fates|
        && |frame.value.payload| == packetBytes && frame.value.window.chunks != []
        && (forall chunk :: chunk in frame.value.window.chunks ==> chunk > barrier)
    {
      ghost var i := |playback.fates|;
      PushedOutTake(playback.fates, drainedAt, |playback.history|);
      frame := playback.Get();
      if frame.Some? {
        assert playback.fates[i] == Delivered && playback.history[i] == frame.value;
        FrameAt(i);
        TracedMeans(playback.history, frameOrigins, cuts, telephonyRate, shape, drainedAt, barrier, i);
        NamedAreAbove(frame.value, frameOrigins[i], packetBytes, barrier);
      }
    }

    /** The window of what is left in the packet buffer, if anything is. */
    method PartialWindow() returns (window: Option<Window>)
      requires Buffered() && inHand == []
      ensures window.None? <==> packetBuffer == []
      ensures window.Some? ==>
        |framed| <= |byteOrigins| && Names(window.value, byteOrigins[|framed|..]) && window.value.chunks != []
    {
      AccountedMeans(packetBuffer, packetSources, framed + inHand, bytes, byteOrigins);
      if packetSources == [] {
        return None;
      }
      WindowNames(packetSources);
      assert Expand(packetSources)[0] in WindowOf(packetSources).chunks by {
        assert Expand(packetSources)[0] in Expand(packetSources);
      }
      return Some(WindowOf(packetSources));
    }

    /** An interruption empties the queue: from here on only later chunks count. */
    method Drain() returns (dropped: seq<Frame>)
      requires Queued() && Fenced() && inHand == [] && epoch == [] && byteOrigins == []
      modifies this`barrier, this`drainedAt, playback`frames, playback`fates
      ensures Fenced() && Recent()
      ensures barrier == chunkOrdinal && drainedAt == |playback.history| == |frameOrigins| && playback.frames == []
      ensures dropped == old(playback.frames) == playback.history[|old(playback.fates)|..]
      ensures playback.fates == old(playback.fates) + seq(|dropped|, _ => Dropped)
      ensures |playback.fates| == |playback.history|
      ensures Tally(playback.fates, Dropped) == Tally(old(playback.fates), Dropped) + |dropped|
    {
      ghost var fates := playback.fates;
      TracedDrain(playback.history, frameOrigins, cuts, telephonyRate, shape, drainedAt, barrier, chunkOrdinal);
      dropped := playback.Drain();
      PlacesAppend(fates, seq(|dropped|, _ => Dropped), Dropped);
      PushedOutDrain(playback.fates);
      barrier, drainedAt := chunkOrdinal, |playback.history|;
    }

    method CountDropped(n: nat)
      modifies this`outputFramesDropped
      ensures outputFramesDropped == old(outputFramesDropped) + n
    {
      outputFramesDropped := outputFramesDropped + n;
    }
  }
}
